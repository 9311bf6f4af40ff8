/**
 * The browser's API client (apps/web/src/lib/api-client.ts): the token pair
 * and its expiry kept in localStorage, the Bearer-header request interceptor,
 * the refresh call, and the response interceptor that retries a request once
 * after a 401.  localStorage is a `WebStorage` object holding a string map;
 * a client without one runs where `window` is undefined.  Times are
 * milliseconds (`Date.now()`), passed in.
 */
module ApiClient {
  import opened Wrappers
  import opened Text

  const DefaultApiUrl := "http://localhost:8001"

  /** `process.env.NEXT_PUBLIC_API_URL || 'http://localhost:8001'`. */
  function ApiBaseUrl(env: Option<string>): (r: string)
    ensures r != ""
    ensures env.Some? && env.value != "" ==> r == env.value
    ensures env.None? || env.value == "" ==> r == DefaultApiUrl
  {
    if env.Some? && env.value != "" then env.value else DefaultApiUrl
  }

  /** A Web Storage area: localStorage, or sessionStorage. */
  class WebStorage {
    var items: map<string, string>

    constructor ()
      ensures items == map[]
    {
      items := map[];
    }
  }

  const AccessTokenKey := "accessToken"
  const RefreshTokenKey := "refreshToken"
  const TokenExpiryKey := "tokenExpiry"
  const UserKey := "user"

  /** The keys `clearTokens` removes. */
  const SessionKeys: set<string> := {AccessTokenKey, RefreshTokenKey, TokenExpiryKey, UserKey}

  /** Clock skew allowed before expiry, in milliseconds. */
  const ExpirySkew := 60000

  datatype TokenPair = TokenPair(accessToken: string, refreshToken: string, expiresIn: int)

  /** `localStorage.getItem(key)`. */
  function Get(items: map<string, string>, key: string): Option<string>
  {
    if key in items then Some(items[key]) else None
  }

  /** JavaScript truthiness of a stored string or null. */
  predicate Truthy(o: Option<string>)
  {
    o.Some? && o.value != ""
  }

  /** The expiry `setTokens` records: `String(Date.now() + expiresIn * 1000)`. */
  function ExpiryStamp(now: int, expiresIn: int): string
  {
    Decimal(now + expiresIn * 1000)
  }

  /** The storage after `setTokens`. */
  function Saved(items: map<string, string>, t: TokenPair, now: int): map<string, string>
  {
    items[AccessTokenKey := t.accessToken][RefreshTokenKey := t.refreshToken][TokenExpiryKey := ExpiryStamp(now, t.expiresIn)]
  }

  /** The storage after `clearTokens`. */
  function Cleared(items: map<string, string>): map<string, string>
  {
    items - SessionKeys
  }

  /** `setTokens` writes the three token keys and nothing else. */
  lemma SavedKeys(items: map<string, string>, t: TokenPair, now: int)
    ensures Get(Saved(items, t, now), AccessTokenKey) == Some(t.accessToken)
    ensures Get(Saved(items, t, now), RefreshTokenKey) == Some(t.refreshToken)
    ensures Get(Saved(items, t, now), TokenExpiryKey) == Some(ExpiryStamp(now, t.expiresIn))
    ensures forall k :: k !in {AccessTokenKey, RefreshTokenKey, TokenExpiryKey} ==> Get(Saved(items, t, now), k) == Get(items, k)
  {
  }

  /** `clearTokens` removes exactly the four session keys. */
  lemma ClearedKeys(items: map<string, string>)
    ensures forall k :: k in SessionKeys ==> Get(Cleared(items), k).None?
    ensures forall k :: k !in SessionKeys ==> Get(Cleared(items), k) == Get(items, k)
  {
  }

  /**
   * `isAuthenticated` over a storage: an access token and an expiry are
   * stored (and non-empty), and now is more than a minute before the expiry
   * as `parseInt` reads it (NaN compares false).
   */
  predicate TokenFresh(items: map<string, string>, now: int)
  {
    && Truthy(Get(items, AccessTokenKey))
    && Truthy(Get(items, TokenExpiryKey))
    && match ParseIntJs(items[TokenExpiryKey])
       case None => false
       case Some(expiry) => now < expiry - ExpirySkew
  }

  /** After saving a pair with a non-empty access token at `saved`, the session is fresh exactly until a minute before it expires. */
  lemma FreshAfterSave(items: map<string, string>, t: TokenPair, saved: int, now: int)
    requires t.accessToken != ""
    ensures TokenFresh(Saved(items, t, saved), now) <==> now < saved + t.expiresIn * 1000 - ExpirySkew
  {
    var expiry := saved + t.expiresIn * 1000;
    var stored := Saved(items, t, saved);
    assert Get(stored, AccessTokenKey) == Some(t.accessToken);
    assert Get(stored, TokenExpiryKey) == Some(ExpiryStamp(saved, t.expiresIn));
    StampReadsBack(stored[TokenExpiryKey], expiry);
  }

  /** An expiry stamp is non-empty and `parseInt` reads it back. */
  lemma StampReadsBack(stamp: string, expiry: int)
    requires stamp == Decimal(expiry)
    ensures stamp != "" && ParseIntJs(stamp) == Some(expiry)
  {
    DecimalStart(expiry);
    ParseIntDecimal(expiry);
  }

  /** Clearing the tokens signs the browser out. */
  lemma ClearedNotFresh(items: map<string, string>, now: int)
    ensures !TokenFresh(Cleared(items), now)
  {
    assert AccessTokenKey !in Cleared(items);
  }

  /** Why a response error is passed on to the caller. */
  datatype Rejection =
    /** The request's own error, unchanged. */
    | OriginalError
    /** The refresh that was attempted (or is still held) failed with this message. */
    | RefreshFailed(message: string)

  /** What the response interceptor does with a failed response. */
  datatype Handling =
    /** `this.client(originalRequest)`: the request is sent again (through the request interceptor). */
    | Resend
    /** `Promise.reject(...)`, after a redirect to `/login` when `toLogin` holds. */
    | Rejected(reason: Rejection, toLogin: bool)

  /** The request configuration the interceptors see. */
  class OutgoingRequest {
    var retry: bool
    var authorization: Option<string>

    constructor ()
      ensures !retry && authorization.None?
    {
      retry := false;
      authorization := None;
    }
  }

  class ApiClient {
    /** localStorage, or null where `window` is undefined. */
    const storage: WebStorage?
    /**
     * The error of a `refreshPromise` that was rejected: the field is reset
     * only after a successful refresh, so a rejected promise stays in place
     * and later 401s await it again instead of refreshing.
     */
    var failedRefresh: Option<string>

    constructor (storage: WebStorage?)
      ensures this.storage == storage && failedRefresh.None?
    {
      this.storage := storage;
      failedRefresh := None;
    }

    /** `getAccessToken` (and, with `RefreshTokenKey`, `getRefreshToken`): null without a window. */
    function Stored(key: string): (r: Option<string>)
      reads this, storage
      ensures r.Some? <==> storage != null && key in storage.items
      ensures r.Some? ==> r.value == storage.items[key]
    {
      if storage == null then None else Get(storage.items, key)
    }

    /** `setTokens` (also `saveTokens`): writes the pair and its expiry; no-op without a window. */
    method SetTokens(t: TokenPair, now: int)
      modifies storage
      ensures storage != null ==> storage.items == Saved(old(storage.items), t, now)
    {
      if storage == null {
        return;
      }
      storage.items := storage.items[AccessTokenKey := t.accessToken];
      storage.items := storage.items[RefreshTokenKey := t.refreshToken];
      storage.items := storage.items[TokenExpiryKey := Decimal(now + t.expiresIn * 1000)];
    }

    /** `clearTokens` (also `logout`): removes the four session keys; no-op without a window. */
    method ClearTokens()
      modifies storage
      ensures storage != null ==> storage.items == Cleared(old(storage.items))
    {
      if storage == null {
        return;
      }
      storage.items := storage.items - {AccessTokenKey};
      storage.items := storage.items - {RefreshTokenKey};
      storage.items := storage.items - {TokenExpiryKey};
      storage.items := storage.items - {UserKey};
    }

    /**
     * `isAuthenticated`: whether a fresh token is stored; None stands for
     * the ReferenceError raised without a window, since the expiry is read
     * from localStorage without the `window` guard.
     */
    method IsAuthenticated(now: int) returns (r: Option<bool>)
      ensures storage == null <==> r.None?
      ensures storage != null ==> (r.value <==> TokenFresh(storage.items, now))
    {
      if storage == null {
        return None;
      }
      var token := Get(storage.items, AccessTokenKey);
      var expiry := Get(storage.items, TokenExpiryKey);
      if !Truthy(token) || !Truthy(expiry) {
        return Some(false);
      }
      match ParseIntJs(expiry.value) {
        case None => r := Some(false);
        case Some(v) => r := Some(now < v - ExpirySkew);
      }
    }

    /** The request interceptor: `Authorization: Bearer <token>` exactly when an access token is stored. */
    method AttachToken(req: OutgoingRequest)
      modifies req
      ensures Truthy(Stored(AccessTokenKey)) ==> req.authorization == Some("Bearer " + Stored(AccessTokenKey).value)
      ensures !Truthy(Stored(AccessTokenKey)) ==> req.authorization == old(req.authorization)
      ensures req.retry == old(req.retry)
    {
      var token := Stored(AccessTokenKey);
      if Truthy(token) {
        req.authorization := Some("Bearer " + token.value);
      }
    }

    /**
     * `refreshToken`: without a stored refresh token it fails with "No
     * refresh token available" and sends nothing; otherwise it posts the
     * token (`sent`), stores the new pair on success, and clears the tokens
     * and rethrows on failure.
     */
    method RefreshToken(response: Result<TokenPair, string>, now: int) returns (r: Result<(), string>, sent: Option<string>)
      modifies storage
      ensures sent == (if Truthy(old(Stored(RefreshTokenKey))) then old(Stored(RefreshTokenKey)) else None)
      ensures sent.None? ==> r == Failure("No refresh token available") && (storage != null ==> storage.items == old(storage.items))
      ensures sent.Some? && response.Failure? ==> r == Failure(response.error) && storage.items == Cleared(old(storage.items))
      ensures sent.Some? && response.Success? ==> r.Success? && storage.items == Saved(old(storage.items), response.value, now)
    {
      var token := Stored(RefreshTokenKey);
      if !Truthy(token) {
        return Failure("No refresh token available"), None;
      }
      sent := token;
      match response {
        case Failure(e) =>
          ClearTokens();
          r := Failure(e);
        case Success(pair) =>
          SetTokens(pair, now);
          r := Success(());
      }
    }

    /**
     * The response interceptor.  A 401 on a request not yet retried marks it
     * retried and refreshes (or awaits the failed refresh still held); on
     * success the request is sent again, on failure the tokens are cleared,
     * the page goes to `/login` and the refresh error is passed on.  Any
     * other failure is passed on unchanged.
     */
    method OnResponseError(req: OutgoingRequest, status: Option<int>, response: Result<TokenPair, string>, now: int)
      returns (h: Handling, sent: Option<string>)
      modifies this, req, storage
      ensures req.authorization == old(req.authorization)
      ensures !(status == Some(401) && !old(req.retry)) ==> (
        && h == Rejected(OriginalError, false) && sent.None?
        && req.retry == old(req.retry) && failedRefresh == old(failedRefresh)
        && (storage != null ==> storage.items == old(storage.items)))
      ensures status == Some(401) && !old(req.retry) ==> req.retry
      ensures status == Some(401) && !old(req.retry) && old(failedRefresh).Some? ==> (
        && sent.None? && h == Rejected(RefreshFailed(old(failedRefresh).value), storage != null)
        && failedRefresh == old(failedRefresh)
        && (storage != null ==> storage.items == Cleared(old(storage.items))))
      ensures status == Some(401) && !old(req.retry) && old(failedRefresh).None? ==> (
        && sent == (if Truthy(old(Stored(RefreshTokenKey))) then old(Stored(RefreshTokenKey)) else None)
        && (sent.Some? && response.Success? ==> (
          && h == Resend && failedRefresh.None?
          && storage.items == Saved(old(storage.items), response.value, now)))
        && (sent.None? ==> (
          && h == Rejected(RefreshFailed("No refresh token available"), storage != null)
          && failedRefresh == Some("No refresh token available")
          && (storage != null ==> storage.items == Cleared(old(storage.items)))))
        && (sent.Some? && response.Failure? ==> (
          && h == Rejected(RefreshFailed(response.error), storage != null)
          && failedRefresh == Some(response.error)
          && storage.items == Cleared(old(storage.items)))))
    {
      if !(status == Some(401) && !req.retry) {
        return Rejected(OriginalError, false), None;
      }
      req.retry := true;
      var outcome: Result<(), string>;
      if failedRefresh.Some? {
        outcome := Failure(failedRefresh.value);
        sent := None;
      } else {
        outcome, sent := RefreshToken(response, now);
        if outcome.Failure? {
          failedRefresh := Some(outcome.error);
        }
      }
      if outcome.Success? {
        return Resend, sent;
      }
      ClearTokens();
      h := Rejected(RefreshFailed(outcome.error), storage != null);
    }
  }
}
