/**
 * The browser's auth service (apps/web/src/lib/services/auth.service.ts):
 * the register/login/OAuth-callback flows that save the session only on a
 * successful response, logout, the current-user fetch, the stored user, the
 * OAuth start URLs, and the rule that picks the message of a thrown error.
 * HTTP replies are inputs; JSON (de)serialisation of the user is an opaque
 * codec.
 */
module AuthClient {
  import opened Wrappers
  import opened Text
  import opened ApiClient
  import ErrorHandler

  /** The user as the client sees it (`User` in api-client.ts). */
  datatype ClientUser = ClientUser(id: string, email: string, username: string, avatarUrl: Option<string>, createdAt: string)

  /** `AuthResponse` in api-client.ts. */
  datatype ClientAuth = ClientAuth(user: ClientUser, accessToken: string, refreshToken: string, expiresIn: int)

  /** `ApiResponse<T>`: `data` is None when it is absent or null. */
  datatype ApiResponse<T> = ApiResponse(success: bool, data: Option<T>)

  /** `JSON.stringify` / `JSON.parse` for a user; `parse` is None where it throws. */
  datatype UserCodec = UserCodec(stringify: ClientUser -> string, parse: string -> Option<ClientUser>)

  /** The codec reads back what it writes, and writes non-empty text. */
  ghost predicate Coherent(c: UserCodec)
  {
    forall u :: c.parse(c.stringify(u)) == Some(u) && c.stringify(u) != ""
  }

  /** The `error` field of a failed response body: an object (with or without a message) or a bare string. */
  datatype ErrorField = ErrorObject(message: Option<string>) | ErrorString(text: string)

  /** What a flow catches: the response's `data.error`, if any, and the error's own `message`. */
  datatype Thrown = Thrown(responseError: Option<ErrorField>, message: Option<string>)

  /** Whether the error field is truthy: any object, or a non-empty string. */
  predicate FieldTruthy(f: ErrorField)
  {
    f.ErrorObject? || f.text != ""
  }

  /** `String(apiError.message || apiError)`: an object without a message prints as "[object Object]". */
  function FieldText(f: ErrorField): string
  {
    match f
    case ErrorObject(m) => if m.Some? && m.value != "" then m.value else "[object Object]"
    case ErrorString(t) => t
  }

  /**
   * `handleError`: the response's error (its message, or the value itself),
   * then the error's own message, then a fixed fallback.  The message is
   * never empty.
   */
  function HandleError(e: Thrown): (m: string)
    ensures m != ""
    ensures e.responseError.Some? && FieldTruthy(e.responseError.value) ==> m == FieldText(e.responseError.value)
    ensures (e.responseError.None? || !FieldTruthy(e.responseError.value)) && e.message.Some? && e.message.value != ""
      ==> m == e.message.value
  {
    if e.responseError.Some? && FieldTruthy(e.responseError.value) then FieldText(e.responseError.value)
    else if e.message.Some? && e.message.value != "" then e.message.value
    else "An unexpected error occurred"
  }

  /**
   * The server's error body `{"error": {"code", "message"}}` (written by the
   * application's error handler) reaches the user as its message whenever the
   * message is not empty, whatever the transport's own message says.
   */
  lemma ServerMessageShown(err: ErrorHandler.HandlerError, transport: Option<string>)
    ensures var msg := ErrorHandler.CustomErrorHandler(err).body.message;
      HandleError(Thrown(Some(ErrorObject(Some(msg))), transport)) == if msg != "" then msg else "[object Object]"
  {
  }

  /** `apiClientBase()`: the API URL without its trailing slashes. */
  function ApiClientBase(env: Option<string>): (r: string)
    ensures r == TrimTrailingSlashes(ApiBaseUrl(env))
    ensures r == [] || r[|r| - 1] != '/'
  {
    TrimEndRemoves(ApiBaseUrl(env), Slash);
    TrimTrailingSlashes(ApiBaseUrl(env))
  }

  /** The state an auth URL uses: the given one if non-empty, else a fresh UUID. */
  function FinalState(state: Option<string>, uuid: string): string
  {
    if state.Some? && state.value != "" then state.value else uuid
  }

  /**
   * `getGitHubAuthUrl` / `getGoogleAuthUrl`: the start URL (state unencoded)
   * and the state it carries.  The URL begins with the API base and ends with
   * the state; the state is the caller's when non-empty, else the fresh UUID.
   */
  function AuthUrl(env: Option<string>, provider: string, state: Option<string>, uuid: string): (r: (string, string))
    ensures ApiClientBase(env) <= r.0
    ensures |r.1| <= |r.0| && r.0[|r.0| - |r.1|..] == r.1
    ensures state.Some? && state.value != "" ==> r.1 == state.value
    ensures state.None? || state.value == "" ==> r.1 == uuid
  {
    var st := FinalState(state, uuid);
    (ApiClientBase(env) + "/api/v1/auth/oauth/" + provider + "?state=" + st, st)
  }

  /**
   * The state returned is the one in the URL: when neither the base URL, the
   * provider nor the state holds a `?`, the URL's query is exactly
   * `state=<returned state>`, and a non-empty state given by the caller is kept.
   */
  lemma AuthUrlCarriesState(env: Option<string>, provider: string, state: Option<string>, uuid: string)
    requires '?' !in ApiBaseUrl(env) && '?' !in provider && '?' !in FinalState(state, uuid)
    ensures var (url, st) := AuthUrl(env, provider, state, uuid);
      Split(url, '?') == [ApiClientBase(env) + "/api/v1/auth/oauth/" + provider, "state=" + st]
    ensures state.Some? && state.value != "" ==> AuthUrl(env, provider, state, uuid).1 == state.value
  {
    var st := FinalState(state, uuid);
    var head := ApiClientBase(env) + "/api/v1/auth/oauth/" + provider;
    var tail := "state=" + st;
    PathHasNoQuery(env, provider);
    assert '?' !in "state=";
    assert "?state=" == ['?'] + "state=";
    assert AuthUrl(env, provider, state, uuid).0 == head + "?state=" + st;
    assert head + "?state=" + st == head + ['?'] + tail;
    SplitAtSeparator(head, tail, '?');
    SplitFree(tail, '?');
  }

  /** The start URL's path holds no `?` when neither the base URL nor the provider does. */
  lemma PathHasNoQuery(env: Option<string>, provider: string)
    requires '?' !in ApiBaseUrl(env) && '?' !in provider
    ensures '?' !in ApiClientBase(env) + "/api/v1/auth/oauth/" + provider
  {
    var base := ApiBaseUrl(env);
    var trimmed := ApiClientBase(env);
    assert '?' !in trimmed by {
      forall k | 0 <= k < |trimmed| ensures trimmed[k] != '?' {
        assert trimmed[k] == base[k];
      }
    }
    assert '?' !in "/api/v1/auth/oauth/";
  }

  /** The storage after a successful flow: the token pair and its expiry, then the user. */
  function SessionSaved(items: map<string, string>, codec: UserCodec, a: ClientAuth, now: int): map<string, string>
  {
    Saved(items, TokenPair(a.accessToken, a.refreshToken, a.expiresIn), now)[UserKey := codec.stringify(a.user)]
  }

  /**
   * After a successful flow whose access token is non-empty, the browser
   * counts as signed in until a minute before the token's lifetime ends.
   */
  lemma SignedInAfterFlow(items: map<string, string>, codec: UserCodec, a: ClientAuth, saved: int, now: int)
    requires a.accessToken != ""
    ensures TokenFresh(SessionSaved(items, codec, a, saved), now) <==> now < saved + a.expiresIn * 1000 - ExpirySkew
  {
    var t := TokenPair(a.accessToken, a.refreshToken, a.expiresIn);
    FreshAfterSave(items, t, saved, now);
    var before := Saved(items, t, saved);
    var after := SessionSaved(items, codec, a, saved);
    assert Get(after, AccessTokenKey) == Get(before, AccessTokenKey);
    assert Get(after, TokenExpiryKey) == Get(before, TokenExpiryKey);
  }

  /**
   * The message a flow fails with: the reply's error when the request itself
   * failed, else the flow's own text ("Registration failed", ...), both
   * through `handleError`.
   */
  function FlowError<T>(reply: Result<ApiResponse<T>, Thrown>, failText: string): string
  {
    if reply.Failure? then HandleError(reply.error) else HandleError(Thrown(None, Some(failText)))
  }

  class AuthClient {
    const api: ApiClient
    const codec: UserCodec

    constructor (api: ApiClient, codec: UserCodec)
      ensures this.api == api && this.codec == codec
    {
      this.api := api;
      this.codec := codec;
    }

    /** `getUserFromStorage`: null without a window, for a missing or empty entry, and for text that does not parse. */
    function StoredUser(): (r: Option<ClientUser>)
      reads this, api, api.storage
      ensures api.storage == null || Get(api.storage.items, UserKey).None? ==> r.None?
      ensures r.Some? ==> (
        && api.storage != null && Get(api.storage.items, UserKey).Some?
        && codec.parse(Get(api.storage.items, UserKey).value) == r)
    {
      if api.storage == null then None
      else
        match Get(api.storage.items, UserKey)
        case None => None
        case Some(raw) => if raw == "" then None else codec.parse(raw)
    }

    /**
     * register / login / handleGitHubCallback / handleGoogleCallback: a reply
     * with `success` and `data` saves the tokens and the user and returns the
     * data; anything else leaves the storage alone and fails with the
     * message `handleError` picks.
     */
    method Authenticate(reply: Result<ApiResponse<ClientAuth>, Thrown>, failText: string, now: int)
      returns (r: Result<ClientAuth, string>)
      modifies api.storage
      ensures reply.Success? && reply.value.success && reply.value.data.Some? ==> (
        && r == Success(reply.value.data.value)
        && (api.storage != null ==> api.storage.items == SessionSaved(old(api.storage.items), codec, r.value, now)))
      ensures !(reply.Success? && reply.value.success && reply.value.data.Some?) ==> (
        && r == Failure(FlowError(reply, failText))
        && (api.storage != null ==> api.storage.items == old(api.storage.items)))
    {
      if reply.Failure? {
        return Failure(HandleError(reply.error));
      }
      var response := reply.value;
      if !(response.success && response.data.Some?) {
        return Failure(HandleError(Thrown(None, Some(failText))));
      }
      var data := response.data.value;
      api.SetTokens(TokenPair(data.accessToken, data.refreshToken, data.expiresIn), now);
      if api.storage != null {
        api.storage.items := api.storage.items[UserKey := codec.stringify(data.user)];
      }
      r := Success(data);
    }

    /** `register`. */
    method Register(reply: Result<ApiResponse<ClientAuth>, Thrown>, now: int) returns (r: Result<ClientAuth, string>)
      modifies api.storage
      ensures r.Failure? ==> (api.storage != null ==> api.storage.items == old(api.storage.items))
      ensures r.Success? <==> reply.Success? && reply.value.success && reply.value.data.Some?
      ensures r.Success? ==> (
        && r == Success(reply.value.data.value)
        && (api.storage != null ==> api.storage.items == SessionSaved(old(api.storage.items), codec, r.value, now)))
      ensures r.Success? && api.storage != null && Coherent(codec) ==> StoredUser() == Some(r.value.user)
      ensures r.Failure? ==> r.error == FlowError(reply, "Registration failed")
    {
      r := Authenticate(reply, "Registration failed", now);
    }

    /** `login`. */
    method Login(reply: Result<ApiResponse<ClientAuth>, Thrown>, now: int) returns (r: Result<ClientAuth, string>)
      modifies api.storage
      ensures r.Failure? ==> (api.storage != null ==> api.storage.items == old(api.storage.items))
      ensures r.Success? <==> reply.Success? && reply.value.success && reply.value.data.Some?
      ensures r.Success? ==> (
        && r == Success(reply.value.data.value)
        && (api.storage != null ==> api.storage.items == SessionSaved(old(api.storage.items), codec, r.value, now)))
      ensures r.Success? && api.storage != null && Coherent(codec) ==> StoredUser() == Some(r.value.user)
      ensures r.Failure? ==> r.error == FlowError(reply, "Login failed")
    {
      r := Authenticate(reply, "Login failed", now);
    }

    /** `handleGitHubCallback` (GET of the GitHub callback path with the code and state). */
    method HandleGitHubCallback(reply: Result<ApiResponse<ClientAuth>, Thrown>, now: int) returns (r: Result<ClientAuth, string>)
      modifies api.storage
      ensures r.Failure? ==> (api.storage != null ==> api.storage.items == old(api.storage.items))
      ensures r.Success? <==> reply.Success? && reply.value.success && reply.value.data.Some?
      ensures r.Success? ==> (
        && r == Success(reply.value.data.value)
        && (api.storage != null ==> api.storage.items == SessionSaved(old(api.storage.items), codec, r.value, now)))
      ensures r.Success? && api.storage != null && Coherent(codec) ==> StoredUser() == Some(r.value.user)
      ensures r.Failure? ==> r.error == FlowError(reply, "GitHub authentication failed")
    {
      r := Authenticate(reply, "GitHub authentication failed", now);
    }

    /** `handleGoogleCallback`. */
    method HandleGoogleCallback(reply: Result<ApiResponse<ClientAuth>, Thrown>, now: int) returns (r: Result<ClientAuth, string>)
      modifies api.storage
      ensures r.Failure? ==> (api.storage != null ==> api.storage.items == old(api.storage.items))
      ensures r.Success? <==> reply.Success? && reply.value.success && reply.value.data.Some?
      ensures r.Success? ==> (
        && r == Success(reply.value.data.value)
        && (api.storage != null ==> api.storage.items == SessionSaved(old(api.storage.items), codec, r.value, now)))
      ensures r.Success? && api.storage != null && Coherent(codec) ==> StoredUser() == Some(r.value.user)
      ensures r.Failure? ==> r.error == FlowError(reply, "Google authentication failed")
    {
      r := Authenticate(reply, "Google authentication failed", now);
    }

    /** `getCurrentUser`: a reply with `success` and `data` stores and returns the user. */
    method GetCurrentUser(reply: Result<ApiResponse<ClientUser>, Thrown>) returns (r: Result<ClientUser, string>)
      modifies api.storage
      ensures r.Success? <==> reply.Success? && reply.value.success && reply.value.data.Some?
      ensures r.Success? ==> (
        && r.value == reply.value.data.value
        && (api.storage != null ==> api.storage.items == old(api.storage.items)[UserKey := codec.stringify(r.value)]))
      ensures r.Failure? ==> (
        && r.error == FlowError(reply, "Failed to fetch user")
        && (api.storage != null ==> api.storage.items == old(api.storage.items)))
    {
      if reply.Failure? {
        return Failure(HandleError(reply.error));
      }
      if !(reply.value.success && reply.value.data.Some?) {
        return Failure(HandleError(Thrown(None, Some("Failed to fetch user"))));
      }
      var user := reply.value.data.value;
      if api.storage != null {
        api.storage.items := api.storage.items[UserKey := codec.stringify(user)];
      }
      r := Success(user);
    }

    /**
     * `logout`: posts the refresh token only when one is stored (`sent`);
     * whatever the POST does, the four session keys are removed.
     */
    method Logout() returns (sent: Option<string>)
      modifies api.storage
      ensures sent == (if Truthy(old(api.Stored(RefreshTokenKey))) then old(api.Stored(RefreshTokenKey)) else None)
      ensures api.storage != null ==> api.storage.items == Cleared(old(api.storage.items))
    {
      var token := api.Stored(RefreshTokenKey);
      sent := if Truthy(token) then token else None;
      api.ClearTokens();
      if api.storage != null {
        api.storage.items := api.storage.items - {UserKey};
      }
    }
  }
}
