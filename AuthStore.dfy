/**
 * The client's auth state store (apps/web/src/lib/stores/auth.store.ts): the
 * `user`/`isAuthenticated`/`isLoading`/`error` record and the actions that
 * move it, each over the auth service of AuthClient.dfy.  Each action is
 * modelled by its settled outcome: the reply the service receives is an
 * input, and the intermediate `isLoading: true` state is not observable at
 * the end except where the page navigates away.
 */
module AuthStore {
  import opened Wrappers
  import opened ApiClient
  import opened AuthClient

  datatype AuthState = AuthState(user: Option<ClientUser>, isAuthenticated: bool, isLoading: bool, error: Option<string>)

  const InitialState := AuthState(None, false, false, None)

  /** What `partialize` keeps in the persisted `auth-storage` entry. */
  datatype Persisted = Persisted(user: Option<ClientUser>, isAuthenticated: bool)

  /** `partialize`: only the user and the authenticated flag are persisted. */
  function Partialize(s: AuthState): Persisted
  {
    Persisted(s.user, s.isAuthenticated)
  }

  /** The state after reloading the page: the initial state merged with what was persisted. */
  function Rehydrated(p: Persisted): AuthState
  {
    InitialState.(user := p.user, isAuthenticated := p.isAuthenticated)
  }

  /** A reload keeps the user and the flag and drops the loading flag and the error. */
  lemma ReloadKeepsSession(s: AuthState)
    ensures Partialize(Rehydrated(Partialize(s))) == Partialize(s)
    ensures !Rehydrated(Partialize(s)).isLoading && Rehydrated(Partialize(s)).error.None?
  {
  }

  /** `error.message || fallback`. */
  function MessageOr(message: string, fallback: string): (m: string)
    ensures m != ""
  {
    if message != "" then message else (if fallback != "" then fallback else "Error")
  }

  /** The state after a successful sign-in of `user`. */
  function SignedIn(user: ClientUser): AuthState
  {
    AuthState(Some(user), true, false, None)
  }

  datatype Provider = GitHub | Google

  function ProviderName(p: Provider): string
  {
    match p
    case GitHub => "github"
    case Google => "google"
  }

  const OAuthStateKey := "oauth_state"
  const OAuthProviderKey := "oauth_provider"

  /** How `fetchUser` settled. */
  datatype FetchOutcome =
    /** The authentication check itself threw (no window): nothing was set. */
    | CheckThrew
    /** Not authenticated: state reset, no request made. */
    | SignedOut
    /** The user was requested; the service's answer. */
    | Fetched(result: Result<ClientUser, string>)

  class AuthStore {
    var state: AuthState
    const service: AuthClient
    /** sessionStorage. */
    const session: WebStorage

    /** sessionStorage and localStorage are different storage areas. */
    ghost predicate Valid()
    {
      session != service.api.storage
    }

    constructor (service: AuthClient, session: WebStorage)
      requires session != service.api.storage
      ensures state == InitialState && this.service == service && this.session == session && Valid()
    {
      state := InitialState;
      this.service := service;
      this.session := session;
    }

    /**
     * `register`: a successful service call signs the user in; a failure
     * stops loading, records the service's message (never the fallback,
     * since that message is never empty) and leaves the user and the flag
     * as they were.
     */
    method Register(reply: Result<ApiResponse<ClientAuth>, Thrown>, now: int) returns (r: Result<ClientAuth, string>)
      modifies this, service.api.storage
      ensures r.Success? <==> reply.Success? && reply.value.success && reply.value.data.Some?
      ensures r.Success? ==> r.value == reply.value.data.value && state == SignedIn(r.value.user)
      ensures r.Failure? ==> (
        && r.error == FlowError(reply, "Registration failed")
        && state == old(state).(isLoading := false, error := Some(r.error)))
      ensures service.api.storage != null ==> (
        service.api.storage.items ==
          if r.Success? then SessionSaved(old(service.api.storage.items), service.codec, r.value, now)
          else old(service.api.storage.items))
    {
      state := state.(isLoading := true, error := None);
      r := service.Authenticate(reply, "Registration failed", now);
      if r.Success? {
        state := SignedIn(r.value.user);
      } else {
        state := state.(isLoading := false, error := Some(MessageOr(r.error, "Registration failed")));
      }
    }

    /** `login`: as `register`, with "Login failed". */
    method Login(reply: Result<ApiResponse<ClientAuth>, Thrown>, now: int) returns (r: Result<ClientAuth, string>)
      modifies this, service.api.storage
      ensures r.Success? <==> reply.Success? && reply.value.success && reply.value.data.Some?
      ensures r.Success? ==> r.value == reply.value.data.value && state == SignedIn(r.value.user)
      ensures r.Failure? ==> (
        && r.error == FlowError(reply, "Login failed")
        && state == old(state).(isLoading := false, error := Some(r.error)))
      ensures service.api.storage != null ==> (
        service.api.storage.items ==
          if r.Success? then SessionSaved(old(service.api.storage.items), service.codec, r.value, now)
          else old(service.api.storage.items))
    {
      state := state.(isLoading := true, error := None);
      r := service.Authenticate(reply, "Login failed", now);
      if r.Success? {
        state := SignedIn(r.value.user);
      } else {
        state := state.(isLoading := false, error := Some(MessageOr(r.error, "Login failed")));
      }
    }

    /** `logout`: the service clears the session, and the store ends in the initial state either way. */
    method Logout() returns (sent: Option<string>)
      modifies this, service.api.storage
      ensures state == InitialState
      ensures sent == (if Truthy(old(service.api.Stored(RefreshTokenKey))) then old(service.api.Stored(RefreshTokenKey)) else None)
      ensures service.api.storage != null ==> service.api.storage.items == Cleared(old(service.api.storage.items))
    {
      state := state.(isLoading := true, error := None);
      sent := service.Logout();
      state := InitialState.(isLoading := false);
    }

    /**
     * `fetchUser`: not authenticated resets the state without a request; a
     * fetched user signs in; a failed fetch resets the state with the error.
     */
    method FetchUser(reply: Result<ApiResponse<ClientUser>, Thrown>, now: int) returns (o: FetchOutcome)
      modifies this, service.api.storage
      ensures service.api.storage == null <==> o == CheckThrew
      ensures o == CheckThrew ==> state == old(state)
      ensures o == SignedOut <==> service.api.storage != null && !TokenFresh(old(service.api.storage.items), now)
      ensures o == SignedOut ==> state == InitialState && service.api.storage.items == old(service.api.storage.items)
      ensures o.Fetched? ==> (
        && TokenFresh(old(service.api.storage.items), now)
        && (o.result.Success? <==> reply.Success? && reply.value.success && reply.value.data.Some?)
        && (o.result.Success? ==> state == SignedIn(o.result.value))
        && (o.result.Failure? ==> state == InitialState.(error := Some(FlowError(reply, "Failed to fetch user")))))
    {
      var authenticated := service.api.IsAuthenticated(now);
      if authenticated.None? {
        return CheckThrew;
      }
      if !authenticated.value {
        state := InitialState;
        return SignedOut;
      }
      state := state.(isLoading := true, error := None);
      var r := service.GetCurrentUser(reply);
      if r.Success? {
        state := SignedIn(r.value);
      } else {
        state := InitialState.(isLoading := false, error := Some(MessageOr(r.error, "Failed to fetch user")));
      }
      o := Fetched(r);
    }

    /**
     * `githubLogin` / `googleLogin`: the start URL with a fresh state; the
     * state and the provider are remembered in sessionStorage and the page
     * goes to the URL (`location`), still loading.
     */
    method StartOAuth(provider: Provider, apiUrlEnv: Option<string>, uuid: string) returns (location: string)
      modifies this, session
      ensures location == AuthUrl(apiUrlEnv, ProviderName(provider), None, uuid).0
      ensures session.items == old(session.items)[OAuthStateKey := uuid][OAuthProviderKey := ProviderName(provider)]
      ensures state == old(state).(isLoading := true, error := None)
    {
      state := state.(isLoading := true, error := None);
      var (url, st) := AuthUrl(apiUrlEnv, ProviderName(provider), None, uuid);
      session.items := session.items[OAuthStateKey := st];
      session.items := session.items[OAuthProviderKey := ProviderName(provider)];
      location := url;
    }

    /**
     * `handleOAuthCallback`: the callback is requested only when the state
     * and the provider remembered at the start both match; otherwise it fails
     * with "Invalid OAuth state".  Both remembered keys are removed on every
     * path.
     */
    method HandleOAuthCallback(provider: Provider, code: string, st: string,
                               reply: Result<ApiResponse<ClientAuth>, Thrown>, now: int)
      returns (r: Result<ClientAuth, string>, requested: bool)
      modifies this, session, service.api.storage
      requires Valid()
      ensures requested <==> (
        && Get(old(session.items), OAuthStateKey) == Some(st)
        && Get(old(session.items), OAuthProviderKey) == Some(ProviderName(provider)))
      ensures !requested ==> (
        && r == Failure("Invalid OAuth state")
        && (service.api.storage != null ==> service.api.storage.items == old(service.api.storage.items)))
      ensures requested ==> (r.Success? <==> reply.Success? && reply.value.success && reply.value.data.Some?)
      ensures session.items == old(session.items) - {OAuthStateKey, OAuthProviderKey}
      ensures r.Success? ==> state == SignedIn(r.value.user)
      ensures r.Failure? ==> state == old(state).(isLoading := false, error := Some(r.error))
    {
      state := state.(isLoading := true, error := None);
      var remembered := session.items;
      var storedState := Get(remembered, OAuthStateKey);
      var storedProvider := Get(remembered, OAuthProviderKey);
      if storedState != Some(st) || storedProvider != Some(ProviderName(provider)) {
        r, requested := Failure("Invalid OAuth state"), false;
      } else {
        requested := true;
        r := Exchange(provider, reply, now);
      }
      assert session.items == remembered;
      session.items := session.items - {OAuthStateKey};
      session.items := session.items - {OAuthProviderKey};
      assert session.items == remembered - {OAuthStateKey, OAuthProviderKey};
      if r.Success? {
        state := SignedIn(r.value.user);
      } else {
        state := state.(isLoading := false, error := Some(MessageOr(r.error, "OAuth authentication failed")));
      }
    }

    /** The provider's callback call on the auth service; a failure always carries a message. */
    method Exchange(provider: Provider, reply: Result<ApiResponse<ClientAuth>, Thrown>, now: int)
      returns (r: Result<ClientAuth, string>)
      modifies service.api.storage
      ensures r.Success? <==> reply.Success? && reply.value.success && reply.value.data.Some?
      ensures r.Success? ==> (
        && r.value == reply.value.data.value
        && (service.api.storage != null ==>
              service.api.storage.items == SessionSaved(old(service.api.storage.items), service.codec, r.value, now)))
      ensures r.Failure? ==> r.error != "" && (service.api.storage != null ==> service.api.storage.items == old(service.api.storage.items))
    {
      if provider == GitHub {
        r := service.HandleGitHubCallback(reply, now);
      } else {
        r := service.HandleGoogleCallback(reply, now);
      }
    }

    /** `markAuthenticated`: only the flag changes. */
    method MarkAuthenticated()
      modifies this
      ensures state == old(state).(isAuthenticated := true)
    {
      state := state.(isAuthenticated := true);
    }

    /** `clearError`: only the error changes. */
    method ClearError()
      modifies this
      ensures state == old(state).(error := None)
    {
      state := state.(error := None);
    }

    /** `reset`. */
    method Reset()
      modifies this
      ensures state == InitialState
    {
      state := InitialState;
    }
  }
}
