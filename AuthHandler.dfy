/**
 * The HTTP handlers of the auth service (internal/handlers/auth_handler.go).
 * A handler owns no state: each is a function of the request's inputs and of
 * the service call it makes, given as a function from that call's argument to
 * its result, so that a handler which answers before calling the service is
 * one whose answer does not depend on that function.
 */
module AuthHandler {
  import opened Wrappers
  import opened Text
  import opened Models
  import Config
  import opened Query
  import opened AuthService
  import opened OAuthService
  import opened ErrorHandler

  /** The `data` of a `{"success": true, ...}` answer. */
  datatype Body =
    | AuthData(auth: AuthResponse)
    | UserData(user: UserResponse)
    | UrlData(url: string, state: string)
    | NoData

  /** What a handler returns: an error for the error handler, a JSON answer, or a redirect. */
  datatype Outcome =
    | Raised(err: HandlerError)
    | Json(status: int, body: Body)
    | Redirected(location: string, status: int)

  const StatusOK := 200
  const StatusCreated := 201
  const StatusTemporaryRedirect := 307
  const StatusBadRequest := 400
  const StatusUnauthorized := 401
  const StatusNotFound := 404

  /** The status the client sees, after the error handler for a raised error. */
  function Status(o: Outcome): int
  {
    match o
    case Raised(e) => CustomErrorHandler(e).status
    case Json(s, _) => s
    case Redirected(_, s) => s
  }

  /** `fiber.NewError(code, message)`. */
  function Fail(code: int, message: string): (o: Outcome)
    ensures Status(o) == code
  {
    Raised(FiberError(code, message))
  }

  /** `Register`: 400 for an unreadable body or any service error, 201 with the response otherwise. */
  function RegisterReply(input: Option<RegisterRequest>, register: RegisterRequest -> Result<AuthResponse, AuthError>)
    : (o: Outcome)
    ensures input.None? ==> o == Fail(StatusBadRequest, "invalid payload")
    ensures input.Some? && register(input.value).Failure? ==>
      o == Fail(StatusBadRequest, ErrorText(register(input.value).error))
    ensures input.Some? && register(input.value).Success? ==> o == Json(StatusCreated, AuthData(register(input.value).value))
  {
    match input
    case None => Fail(StatusBadRequest, "invalid payload")
    case Some(req) =>
      match register(req)
      case Failure(e) => Fail(StatusBadRequest, ErrorText(e))
      case Success(resp) => Json(StatusCreated, AuthData(resp))
  }

  /** `Login`: a failure is 401 exactly when it is ErrInvalidCredentials, 400 otherwise. */
  function LoginReply(input: Option<LoginRequest>, login: LoginRequest -> Result<AuthResponse, AuthError>): (o: Outcome)
    ensures input.None? ==> o == Fail(StatusBadRequest, "invalid payload")
    ensures input.Some? && login(input.value).Failure? ==> (
      && o.Raised? && o.err.FiberError? && o.err.message == ErrorText(login(input.value).error)
      && (Status(o) == StatusUnauthorized <==> login(input.value).error == InvalidCredentials)
      && (Status(o) != StatusUnauthorized ==> Status(o) == StatusBadRequest))
    ensures input.Some? && login(input.value).Success? ==> o == Json(StatusOK, AuthData(login(input.value).value))
  {
    match input
    case None => Fail(StatusBadRequest, "invalid payload")
    case Some(req) =>
      match login(req)
      case Failure(e) => Fail(if e == InvalidCredentials then StatusUnauthorized else StatusBadRequest, ErrorText(e))
      case Success(resp) => Json(StatusOK, AuthData(resp))
  }

  /** `RefreshToken`: a failure is 401 exactly when it is ErrInvalidToken, 400 otherwise. */
  function RefreshReply(input: Option<string>, refresh: string -> Result<AuthResponse, AuthError>): (o: Outcome)
    ensures input.None? ==> o == Fail(StatusBadRequest, "invalid payload")
    ensures input.Some? && refresh(input.value).Failure? ==> (
      && o.Raised? && o.err.FiberError? && o.err.message == ErrorText(refresh(input.value).error)
      && (Status(o) == StatusUnauthorized <==> refresh(input.value).error == InvalidToken)
      && (Status(o) != StatusUnauthorized ==> Status(o) == StatusBadRequest))
    ensures input.Some? && refresh(input.value).Success? ==> o == Json(StatusOK, AuthData(refresh(input.value).value))
  {
    match input
    case None => Fail(StatusBadRequest, "invalid payload")
    case Some(token) =>
      match refresh(token)
      case Failure(e) => Fail(if e == InvalidToken then StatusUnauthorized else StatusBadRequest, ErrorText(e))
      case Success(resp) => Json(StatusOK, AuthData(resp))
  }

  /** An expired refresh token is answered with 400, not 401. */
  lemma ExpiredRefreshIsBadRequest(token: string, refresh: string -> Result<AuthResponse, AuthError>)
    requires refresh(token) == Failure(TokenExpired)
    ensures Status(RefreshReply(Some(token), refresh)) == StatusBadRequest
  {
  }

  /** `Logout`: the store's error, if any, as a 400. */
  function LogoutReply(input: Option<string>, logout: string -> Option<string>): (o: Outcome)
    ensures input.None? ==> o == Fail(StatusBadRequest, "invalid payload")
    ensures input.Some? && logout(input.value).Some? ==> o == Fail(StatusBadRequest, logout(input.value).value)
    ensures input.Some? && logout(input.value).None? ==> o == Json(StatusOK, NoData)
  {
    match input
    case None => Fail(StatusBadRequest, "invalid payload")
    case Some(token) =>
      match logout(token)
      case Some(message) => Fail(StatusBadRequest, message)
      case None => Json(StatusOK, NoData)
  }

  /**
   * `Me`: the `userID` local must be a non-empty string (else 401), a UUID
   * (else 400), and name a user the service finds (else 404).
   */
  function MeReply(canonicalUuid: string -> Option<string>, local: Option<string>,
                   getUser: string -> Result<UserResponse, AuthError>): (o: Outcome)
    ensures local.None? || local.value == "" ==> o == Fail(StatusUnauthorized, "unauthorized")
    ensures local.Some? && local.value != "" && canonicalUuid(local.value).None? ==> o == Fail(StatusBadRequest, "invalid user id")
    ensures local.Some? && local.value != "" && canonicalUuid(local.value).Some? ==>
      var r := getUser(canonicalUuid(local.value).value);
      && (r.Failure? ==> o == Fail(StatusNotFound, ErrorText(r.error)))
      && (r.Success? ==> o == Json(StatusOK, UserData(r.value)))
  {
    if local.None? || local.value == "" then Fail(StatusUnauthorized, "unauthorized")
    else
      match canonicalUuid(local.value)
      case None => Fail(StatusBadRequest, "invalid user id")
      case Some(id) =>
        match getUser(id)
        case Failure(e) => Fail(StatusNotFound, ErrorText(e))
        case Success(u) => Json(StatusOK, UserData(u))
  }

  /** The three statuses of `Me` that do not come from a successful lookup. */
  lemma MeStatuses(canonicalUuid: string -> Option<string>, local: Option<string>,
                   getUser: string -> Result<UserResponse, AuthError>)
    ensures Status(MeReply(canonicalUuid, local, getUser)) in {StatusOK, StatusUnauthorized, StatusBadRequest, StatusNotFound}
    ensures Status(MeReply(canonicalUuid, local, getUser)) == StatusOK ==>
      local.Some? && local.value != "" && canonicalUuid(local.value).Some? && getUser(canonicalUuid(local.value).value).Success?
  {
  }

  /** The state an authorisation URL carries: the caller's, or a new UUID when the caller gave none. */
  function StateOrNew(state: string, newUuid: string): (s: string)
    ensures state != "" ==> s == state
    ensures state == "" ==> s == newUuid
  {
    if state == "" then newUuid else state
  }

  /** `OAuthStart`: the provider's authorisation URL and the state it carries; other providers are a 400. */
  function OAuthStartReply(codec: UrlCodec, cfg: Config.Config, provider: string, state: string, newUuid: string)
    : (o: Outcome)
    ensures provider !in {"github", "google"} ==> o == Fail(StatusBadRequest, "unsupported provider")
    ensures provider == "github" ==> o == Json(StatusOK, UrlData(GitHubAuthUrl(codec, cfg, StateOrNew(state, newUuid)), StateOrNew(state, newUuid)))
    ensures provider == "google" ==> o == Json(StatusOK, UrlData(GoogleAuthUrl(codec, cfg, StateOrNew(state, newUuid)), StateOrNew(state, newUuid)))
  {
    var s := StateOrNew(state, newUuid);
    if provider == "github" then Json(StatusOK, UrlData(GitHubAuthUrl(codec, cfg, s), s))
    else if provider == "google" then Json(StatusOK, UrlData(GoogleAuthUrl(codec, cfg, s), s))
    else Fail(StatusBadRequest, "unsupported provider")
  }

  /** The state `OAuthStart` reports is the one inside the URL it reports. */
  lemma OAuthStartStateInUrl(codec: UrlCodec, cfg: Config.Config, provider: string, state: string, newUuid: string)
    requires Query.Coherent(codec) && provider in {"github", "google"}
    ensures var o := OAuthStartReply(codec, cfg, provider, state, newUuid);
      && o.Json? && o.body.UrlData?
      && var q := if provider == "github" then GitHubAuthParams(cfg, o.body.state) else GoogleAuthParams(cfg, o.body.state);
      && o.body.url == (if provider == "github" then GitHubAuthorize else GoogleAuthorize) + "?" + Encode(codec, q)
      && q[|q| - 1] == ("state", o.body.state)
      && Parse(codec, Encode(codec, q)) == Some(q)
  {
    var s := StateOrNew(state, newUuid);
    AuthUrlsCarryState(codec, cfg, s);
    if provider == "github" {
      var q := GitHubAuthParams(cfg, s);
      QueryRoundTrip(codec, q);
      assert GitHubAuthUrl(codec, cfg, s) == GitHubAuthorize + "?" + Encode(codec, q);
    } else {
      var q := GoogleAuthParams(cfg, s);
      QueryRoundTrip(codec, q);
      assert GoogleAuthUrl(codec, cfg, s) == GoogleAuthorize + "?" + Encode(codec, q);
    }
  }

  /** `OAuthCallback`: a missing code is refused before the provider is even looked at. */
  function OAuthCallbackReply(provider: string, code: string,
                              github: string -> Result<AuthResponse, AuthError>,
                              google: string -> Result<AuthResponse, AuthError>): (o: Outcome)
    ensures code == "" ==> o == Fail(StatusBadRequest, "missing code")
    ensures code != "" && provider !in {"github", "google"} ==> o == Fail(StatusBadRequest, "unsupported provider")
    ensures code != "" && provider in {"github", "google"} ==>
      var r := if provider == "github" then github(code) else google(code);
      && (r.Failure? ==> o == Fail(StatusBadRequest, ErrorText(r.error)))
      && (r.Success? ==> o == Json(StatusOK, AuthData(r.value)))
  {
    if code == "" then Fail(StatusBadRequest, "missing code")
    else
      var r: Option<Result<AuthResponse, AuthError>> :=
        if provider == "github" then Some(github(code))
        else if provider == "google" then Some(google(code))
        else None;
      match r
      case None => Fail(StatusBadRequest, "unsupported provider")
      case Some(Failure(e)) => Fail(StatusBadRequest, ErrorText(e))
      case Some(Success(resp)) => Json(StatusOK, AuthData(resp))
  }

  /**
   * `buildRedirectWithTokens`: the frontend without trailing slashes, then
   * `/dashboard?` and both tokens with the lifetime in decimal (keys in
   * `url.Values.Encode` order).
   */
  function RedirectParams(resp: AuthResponse): Params
  {
    [("access_token", resp.accessToken), ("expires_in", Decimal(resp.expiresIn)), ("refresh_token", resp.refreshToken)]
  }

  function BuildRedirectWithTokens(codec: UrlCodec, frontend: string, resp: AuthResponse): string
  {
    TrimTrailingSlashes(frontend) + "/dashboard?" + Encode(codec, RedirectParams(resp))
  }

  /**
   * The redirect's query reads back as the two tokens and a lifetime that
   * `strconv.Atoi` returns as the response's `ExpiresIn`.
   */
  lemma RedirectCarriesTokens(codec: UrlCodec, frontend: string, resp: AuthResponse)
    requires Query.Coherent(codec) && MinInt64 <= resp.expiresIn <= MaxInt64
    ensures var u := BuildRedirectWithTokens(codec, frontend, resp); var n := |TrimTrailingSlashes(frontend)| + 11;
      && u[..n] == TrimTrailingSlashes(frontend) + "/dashboard?"
      && Parse(codec, u[n..]) == Some(RedirectParams(resp))
      && Atoi(RedirectParams(resp)[1].1) == Some(resp.expiresIn)
  {
    var u := BuildRedirectWithTokens(codec, frontend, resp);
    var n := |TrimTrailingSlashes(frontend)| + 11;
    assert u[n..] == Encode(codec, RedirectParams(resp));
    QueryRoundTrip(codec, RedirectParams(resp));
    AtoiDecimal(resp.expiresIn);
  }

  /** The GitHub and Google `...AuthURL` handlers: a 307 to the URL for the given state, or a new UUID. */
  function AuthUrlRedirect(codec: UrlCodec, cfg: Config.Config, provider: string, state: string, newUuid: string): (o: Outcome)
    requires provider in {"github", "google"}
    ensures o.Redirected? && o.status == StatusTemporaryRedirect
    ensures o.location == (if provider == "github" then GitHubAuthUrl(codec, cfg, StateOrNew(state, newUuid))
                           else GoogleAuthUrl(codec, cfg, StateOrNew(state, newUuid)))
  {
    var s := StateOrNew(state, newUuid);
    Redirected(if provider == "github" then GitHubAuthUrl(codec, cfg, s) else GoogleAuthUrl(codec, cfg, s), StatusTemporaryRedirect)
  }

  /**
   * `HandleGitHubCallback` / `HandleGoogleCallback`: a missing code is a 400
   * before the service is called; a service error is a 400; success is a
   * 307 to the dashboard with the tokens.
   */
  function ProviderCallbackReply(codec: UrlCodec, cfg: Config.Config, code: string,
                                 callback: string -> Result<AuthResponse, AuthError>): (o: Outcome)
    ensures code == "" ==> o == Fail(StatusBadRequest, "missing authorization code")
    ensures code != "" && callback(code).Failure? ==> o == Fail(StatusBadRequest, ErrorText(callback(code).error))
    ensures code != "" && callback(code).Success? ==>
      o == Redirected(BuildRedirectWithTokens(codec, cfg.frontendUrl, callback(code).value), StatusTemporaryRedirect)
  {
    if code == "" then Fail(StatusBadRequest, "missing authorization code")
    else
      match callback(code)
      case Failure(e) => Fail(StatusBadRequest, ErrorText(e))
      case Success(resp) => Redirected(BuildRedirectWithTokens(codec, cfg.frontendUrl, resp), StatusTemporaryRedirect)
  }

  /** With an empty code no callback is consulted: the answer is the same whatever the service would do. */
  lemma EmptyCodeSkipsService(codec: UrlCodec, cfg: Config.Config, provider: string,
                              a: string -> Result<AuthResponse, AuthError>, b: string -> Result<AuthResponse, AuthError>)
    ensures OAuthCallbackReply(provider, "", a, a) == OAuthCallbackReply(provider, "", b, b)
    ensures ProviderCallbackReply(codec, cfg, "", a) == ProviderCallbackReply(codec, cfg, "", b)
  {
  }
}
