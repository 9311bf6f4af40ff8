/**
 * Sign-in through GitHub and Google (internal/service/oauth_service.go): the
 * provider authorisation URLs, and the callbacks that trade a code for the
 * provider's profile, find or create the matching user, and issue a token
 * pair through the auth service.  The providers' HTTP endpoints are opaque
 * functions from request to reply.
 */
module OAuthService {
  import opened Wrappers
  import opened Text
  import opened Models
  import Config
  import opened Query
  import opened UserRepository
  import opened TokenRepository
  import opened AuthService

  // ---------------------------------------------------------------------
  // Authorisation URLs
  // ---------------------------------------------------------------------

  /** The callback a provider redirects to: the configured base without trailing slashes, then `/<provider>/callback`. */
  function RedirectUri(cfg: Config.Config, provider: string): string
  {
    TrimTrailingSlashes(cfg.oauthCallbackUrl) + "/" + provider + "/callback"
  }

  /** The base keeps everything up to its last non-slash, so exactly one slash precedes the provider. */
  lemma RedirectUriShape(cfg: Config.Config, provider: string)
    ensures var b := TrimTrailingSlashes(cfg.oauthCallbackUrl);
      && RedirectUri(cfg, provider) == b + "/" + provider + "/callback"
      && b <= cfg.oauthCallbackUrl
      && (b == [] || b[|b| - 1] != '/')
      && forall i :: |b| <= i < |cfg.oauthCallbackUrl| ==> cfg.oauthCallbackUrl[i] == '/'
  {
    TrimEndRemoves(cfg.oauthCallbackUrl, Slash);
  }

  /** A trailing slash on the configured base makes no difference. */
  lemma RedirectUriIgnoresTrailingSlash(cfg: Config.Config, provider: string)
    ensures RedirectUri(cfg.(oauthCallbackUrl := cfg.oauthCallbackUrl + "/"), provider) == RedirectUri(cfg, provider)
  {
    var s := cfg.oauthCallbackUrl + "/";
    assert s[..|s| - 1] == cfg.oauthCallbackUrl;
  }

  const GitHubAuthorize := "https://github.com/login/oauth/authorize"
  const GoogleAuthorize := "https://accounts.google.com/o/oauth2/v2/auth"

  function GitHubAuthParams(cfg: Config.Config, state: string): Params
  {
    [("client_id", cfg.gitHubClientId), ("redirect_uri", RedirectUri(cfg, "github")),
     ("scope", "user:email"), ("state", state)]
  }

  function GoogleAuthParams(cfg: Config.Config, state: string): Params
  {
    [("client_id", cfg.googleClientId), ("redirect_uri", RedirectUri(cfg, "google")),
     ("response_type", "code"), ("scope", "email profile"), ("state", state)]
  }

  /** The parameters are listed in the order `url.Values.Encode` writes them. */
  lemma AuthParamsSorted(cfg: Config.Config, state: string)
    ensures SortedKeys(GitHubAuthParams(cfg, state)) && SortedKeys(GoogleAuthParams(cfg, state))
  {
    assert StringLess("client_id", "redirect_uri");
    assert StringLess("redirect_uri", "response_type");
    assert StringLess("redirect_uri", "scope");
    assert StringLess("response_type", "scope");
    assert StringLess("scope", "state");
  }

  /** `GetGitHubAuthURL`. */
  function GitHubAuthUrl(codec: UrlCodec, cfg: Config.Config, state: string): string
  {
    GitHubAuthorize + "?" + Encode(codec, GitHubAuthParams(cfg, state))
  }

  /** `GetGoogleAuthURL`. */
  function GoogleAuthUrl(codec: UrlCodec, cfg: Config.Config, state: string): string
  {
    GoogleAuthorize + "?" + Encode(codec, GoogleAuthParams(cfg, state))
  }

  /**
   * The authorisation URL is the provider's endpoint with a query that reads
   * back as the client id, the redirect URI, the scope and the caller's state.
   */
  lemma AuthUrlsCarryState(codec: UrlCodec, cfg: Config.Config, state: string)
    requires Query.Coherent(codec)
    ensures var u := GitHubAuthUrl(codec, cfg, state); var n := |GitHubAuthorize| + 1;
      && u[..n] == GitHubAuthorize + "?"
      && Parse(codec, u[n..]) == Some(GitHubAuthParams(cfg, state))
    ensures var u := GoogleAuthUrl(codec, cfg, state); var n := |GoogleAuthorize| + 1;
      && u[..n] == GoogleAuthorize + "?"
      && Parse(codec, u[n..]) == Some(GoogleAuthParams(cfg, state))
  {
    var g := GitHubAuthUrl(codec, cfg, state);
    assert g[|GitHubAuthorize| + 1..] == Encode(codec, GitHubAuthParams(cfg, state));
    QueryRoundTrip(codec, GitHubAuthParams(cfg, state));
    var o := GoogleAuthUrl(codec, cfg, state);
    assert o[|GoogleAuthorize| + 1..] == Encode(codec, GoogleAuthParams(cfg, state));
    QueryRoundTrip(codec, GoogleAuthParams(cfg, state));
  }

  // ---------------------------------------------------------------------
  // The providers
  // ---------------------------------------------------------------------

  datatype GitHubUser = GitHubUser(id: int, login: string, email: string, avatarUrl: string, name: string)

  datatype GoogleUser = GoogleUser(id: string, email: string, name: string, picture: string)

  /** GitHub's endpoints: the code exchange (its `access_token`), `/user` and `/user/emails`, each with its error. */
  datatype GitHubApi = GitHubApi(
    exchange: Params -> Result<string, string>,
    user: string -> Result<GitHubUser, string>,
    emails: string -> Result<seq<string>, string>)

  /** Google's endpoints: the code exchange and `/oauth2/v2/userinfo`. */
  datatype GoogleApi = GoogleApi(
    exchange: Params -> Result<string, string>,
    user: string -> Result<GoogleUser, string>)

  /** The form `exchangeGitHubCode` sends. */
  function GitHubExchangeParams(cfg: Config.Config, code: string): Params
  {
    [("client_id", cfg.gitHubClientId), ("client_secret", cfg.gitHubClientSecret), ("code", code)]
  }

  /** The form `HandleGoogleCallback` posts. */
  function GoogleExchangeParams(cfg: Config.Config, code: string): Params
  {
    [("client_id", cfg.googleClientId), ("client_secret", cfg.googleClientSecret), ("code", code),
     ("grant_type", "authorization_code"), ("redirect_uri", RedirectUri(cfg, "google"))]
  }

  /**
   * `getGitHubUserInfo`: the profile, with the first address of
   * `/user/emails` standing in for an empty e-mail when that call succeeds
   * with at least one address.
   */
  function GitHubProfile(api: GitHubApi, token: string): (r: Result<GitHubUser, string>)
    ensures r.Success? <==> api.user(token).Success?
    ensures r.Failure? ==> r.error == api.user(token).error
    ensures r.Success? ==> r.value.(email := api.user(token).value.email) == api.user(token).value
    ensures r.Success? && api.user(token).value.email != "" ==> r.value.email == api.user(token).value.email
    ensures r.Success? && api.user(token).value.email == "" ==>
      if api.emails(token).Success? && |api.emails(token).value| > 0 then r.value.email == api.emails(token).value[0]
      else r.value.email == ""
  {
    match api.user(token)
    case Failure(e) => Failure(e)
    case Success(info) =>
      if info.email == "" && api.emails(token).Success? && |api.emails(token).value| > 0 then
        Success(info.(email := api.emails(token).value[0]))
      else Success(info)
  }

  /** The part of an e-mail address before its first `@`, or all of it. */
  function UsernameOf(email: string): (r: string)
    ensures r <= email && '@' !in r
    ensures |r| < |email| ==> email[|r|] == '@'
  {
    if |email| == 0 || email[0] == '@' then "" else [email[0]] + UsernameOf(email[1..])
  }

  /** An `@`-free prefix that ends at an `@` or at the end is the username. */
  lemma {:induction false} UsernameOfPrefix(email: string, i: nat)
    requires i <= |email| && '@' !in email[..i]
    requires i == |email| || email[i] == '@'
    ensures UsernameOf(email) == email[..i]
    decreases i
  {
    if i > 0 {
      assert email[0] in email[..i];
      assert email[1..][..i - 1] == email[1..i];
      UsernameOfPrefix(email[1..], i - 1);
    } else if |email| > 0 {
      assert email[0] == '@';
    }
  }

  lemma UsernameOfAddress(local: string, domain: string)
    requires '@' !in local
    ensures UsernameOf(local + "@" + domain) == local
  {
    var e := local + "@" + domain;
    assert e[..|local|] == local;
    UsernameOfPrefix(e, |local|);
  }

  /** `generateUsername`. */
  method GenerateUsername(email: string) returns (name: string)
    ensures name == UsernameOf(email)
  {
    var i := 0;
    while i < |email|
      invariant 0 <= i <= |email|
      invariant '@' !in email[..i]
    {
      if email[i] == '@' {
        UsernameOfPrefix(email, i);
        return email[..i];
      }
      assert email[..i + 1] == email[..i] + [email[i]];
      i := i + 1;
    }
    assert email[..i] == email;
    UsernameOfPrefix(email, i);
    name := email;
  }

  /** The user a first GitHub sign-in creates: no password, the avatar and the GitHub id as decimal text. */
  function GitHubAccount(info: GitHubUser): User
  {
    User("", info.email, info.login, "", Some(info.avatarUrl), Some(Decimal(info.id)), None, 0, 0)
  }

  /** The user a first Google sign-in creates, named after the local part of its address. */
  function GoogleAccount(info: GoogleUser): User
  {
    User("", info.email, UsernameOf(info.email), "", Some(info.picture), None, Some(info.id), 0, 0)
  }

  // ---------------------------------------------------------------------
  // Find or create
  // ---------------------------------------------------------------------

  /**
   * The user found by the provider id, or else `account` as created (stamped
   * with the new id and the clock); any other lookup error, and any insert
   * error, is returned.  The second component is the table afterwards.
   * `db` is the fault of the lookup and `dbInsert` that of the insert.
   */
  function Admitted(rows: seq<User>, col: Column, v: string, account: User, newId: string, now: int,
                    db: Option<string>, dbInsert: Option<string>)
    : (r: (Result<User, RepoError>, seq<User>))
    ensures r.1 == rows || (r.0.Success? && r.1 == rows + [r.0.value] && r.0.value == Stamped(account, newId, now))
    ensures r.0.Success? ==> r.0.value in r.1
    ensures db.Some? ==> r == (Failure(DbError(db.value)), rows)
    ensures db.None? && (exists u :: u in rows && Matches(u, col, v)) ==>
      r.1 == rows && r.0.Success? && r.0.value in rows && Matches(r.0.value, col, v)
    ensures db.None? && (forall u :: u in rows ==> !Matches(u, col, v)) ==>
      var s := Stamped(account, newId, now);
      && (InsertError(rows, s, dbInsert).None? ==> r == (Success(s), rows + [s]))
      && (InsertError(rows, s, dbInsert).Some? ==> r == (Failure(InsertError(rows, s, dbInsert).value), rows))
    ensures col in {ByGitHubId, ByGoogleId} && Matches(account, col, v) && r.0.Success? ==> Matches(r.0.value, col, v)
    ensures Unique(rows) ==> Unique(r.1)
  {
    match Select(rows, col, v, db)
    case Success(u) => (Success(u), rows)
    case Failure(UserNotFound) =>
      var s := Stamped(account, newId, now);
      if InsertError(rows, s, dbInsert).None? then
        InsertKeepsUnique(rows, s);
        (Success(s), rows + [s])
      else (Failure(InsertError(rows, s, dbInsert).value), rows)
    case Failure(e) => (Failure(e), rows)
  }

  /** Signing in again with the same provider id finds the same user and creates nobody. */
  lemma AdmittedIdempotent(rows: seq<User>, col: Column, v: string, account: User, newId: string, now: int,
                           account2: User, newId2: string, now2: int)
    requires Matches(account, col, v) && col in {ByGitHubId, ByGoogleId}
    requires Admitted(rows, col, v, account, newId, now, None, None).0.Success?
    ensures var (u, after) := Admitted(rows, col, v, account, newId, now, None, None);
      Admitted(after, col, v, account2, newId2, now2, None, None) == (u, after)
  {
    var (u, after) := Admitted(rows, col, v, account, newId, now, None, None);
    if Select(rows, col, v, None).Failure? {
      assert forall w :: w in rows ==> !Matches(w, col, v);
      var again := Select(after, col, v, None);
      assert u.value in after && Matches(u.value, col, v);
      assert again.Success? && again.value in after && Matches(again.value, col, v);
      assert again.value !in rows;
    }
  }

  /**
   * A provider whose e-mail address already belongs to another account is
   * not linked to it: the insert fails with ErrEmailAlreadyExists.
   */
  lemma NoLinkByEmail(rows: seq<User>, col: Column, v: string, account: User, newId: string, now: int, other: User)
    requires forall w :: w in rows ==> !Matches(w, col, v)
    requires other in rows && other.email == account.email
    ensures Admitted(rows, col, v, account, newId, now, None, None) == (Failure(EmailAlreadyExists), rows)
  {
    assert Select(rows, col, v, None) == Failure(UserNotFound);
  }

  /** A repository outcome as the callbacks return it: the same user, or the repository error wrapped. */
  function AsAuthResult(a: (Result<User, RepoError>, seq<User>)): (r: (Result<User, AuthError>, seq<User>))
    ensures r.1 == a.1
    ensures r.0.Success? <==> a.0.Success?
    ensures a.0.Success? ==> r.0.value == a.0.value
    ensures a.0.Failure? ==> r.0 == Failure(Repo(a.0.error))
  {
    match a.0
    case Success(u) => (Success(u), a.1)
    case Failure(e) => (Failure(Repo(e)), a.1)
  }

  /** The lookup and creation a GitHub callback performs once the profile is in hand. */
  function GitHubAdmission(api: GitHubApi, cfg: Config.Config, code: string, rows: seq<User>, d: Draw, db: Option<string>, dbInsert: Option<string>)
    : (r: (Result<User, AuthError>, seq<User>))
    ensures api.exchange(GitHubExchangeParams(cfg, code)).Failure? ==>
      r == (Failure(Other(api.exchange(GitHubExchangeParams(cfg, code)).error)), rows)
    ensures api.exchange(GitHubExchangeParams(cfg, code)).Success? ==>
      var profile := GitHubProfile(api, api.exchange(GitHubExchangeParams(cfg, code)).value);
      && (profile.Failure? ==> r == (Failure(Other(profile.error)), rows))
      && (profile.Success? ==>
            r == AsAuthResult(Admitted(rows, ByGitHubId, Decimal(profile.value.id), GitHubAccount(profile.value), d.newUserId, d.now, db, dbInsert)))
      && (profile.Success? && r.0.Success? ==> r.0.value.gitHubId == Some(Decimal(profile.value.id)))
      && (profile.Success? && r.1 != rows ==> (
            && r.0.value.id == d.newUserId && r.0.value.email == profile.value.email
            && r.0.value.username == profile.value.login && r.0.value.passwordHash == ""
            && r.0.value.avatarUrl == Some(profile.value.avatarUrl)))
    ensures r.0.Success? ==> r.0.value.gitHubId.Some? && r.0.value in r.1
    ensures r.1 == rows || (r.0.Success? && r.1 == rows + [r.0.value])
    ensures Unique(rows) ==> Unique(r.1)
  {
    match api.exchange(GitHubExchangeParams(cfg, code))
    case Failure(e) => (Failure(Other(e)), rows)
    case Success(token) =>
      match GitHubProfile(api, token)
      case Failure(e) => (Failure(Other(e)), rows)
      case Success(info) =>
        var gitHubId := Decimal(info.id);
        AsAuthResult(Admitted(rows, ByGitHubId, gitHubId, GitHubAccount(info), d.newUserId, d.now, db, dbInsert))
  }

  /** The lookup and creation a Google callback performs once the profile is in hand. */
  function GoogleAdmission(api: GoogleApi, cfg: Config.Config, code: string, rows: seq<User>, d: Draw, db: Option<string>, dbInsert: Option<string>)
    : (r: (Result<User, AuthError>, seq<User>))
    ensures api.exchange(GoogleExchangeParams(cfg, code)).Failure? ==>
      r == (Failure(Other(api.exchange(GoogleExchangeParams(cfg, code)).error)), rows)
    ensures api.exchange(GoogleExchangeParams(cfg, code)).Success? ==>
      var profile := api.user(api.exchange(GoogleExchangeParams(cfg, code)).value);
      && (profile.Failure? ==> r == (Failure(Other(profile.error)), rows))
      && (profile.Success? ==>
            r == AsAuthResult(Admitted(rows, ByGoogleId, profile.value.id, GoogleAccount(profile.value), d.newUserId, d.now, db, dbInsert)))
      && (profile.Success? && r.0.Success? ==> r.0.value.googleId == Some(profile.value.id))
      && (profile.Success? && r.1 != rows ==> (
            && r.0.value.id == d.newUserId && r.0.value.email == profile.value.email
            && r.0.value.username == UsernameOf(profile.value.email) && r.0.value.passwordHash == ""
            && r.0.value.avatarUrl == Some(profile.value.picture)))
    ensures r.0.Success? ==> r.0.value.googleId.Some? && r.0.value in r.1
    ensures r.1 == rows || (r.0.Success? && r.1 == rows + [r.0.value])
    ensures Unique(rows) ==> Unique(r.1)
  {
    match api.exchange(GoogleExchangeParams(cfg, code))
    case Failure(e) => (Failure(Other(e)), rows)
    case Success(token) =>
      match api.user(token)
      case Failure(e) => (Failure(Other(e)), rows)
      case Success(info) =>
        AsAuthResult(Admitted(rows, ByGoogleId, info.id, GoogleAccount(info), d.newUserId, d.now, db, dbInsert))
  }

  /** The Google token exchange sends the same redirect URI the authorisation URL named. */
  lemma GoogleRedirectsAgree(cfg: Config.Config, code: string, state: string)
    ensures GoogleExchangeParams(cfg, code)[4] == GoogleAuthParams(cfg, state)[1] == ("redirect_uri", RedirectUri(cfg, "google"))
  {
  }

  class OAuthService {
    const users: UserTable
    const tokens: TokenStore
    const cfg: Config.Config
    /** The auth service when it is the concrete one, else null (`issueTokens` then fails). */
    const authSvc: AuthService?

    ghost predicate Valid()
      reads this, users
    {
      && users.Valid()
      && (authSvc != null ==> authSvc.tokens == tokens)
    }

    constructor (users: UserTable, tokens: TokenStore, cfg: Config.Config, authSvc: AuthService?)
      requires users.Valid() && (authSvc != null ==> authSvc.tokens == tokens)
      ensures Valid()
      ensures this.users == users && this.tokens == tokens && this.cfg == cfg && this.authSvc == authSvc
    {
      this.users := users;
      this.tokens := tokens;
      this.cfg := cfg;
      this.authSvc := authSvc;
    }

    /** `issueTokens`: through the auth service's own generation and storage. */
    method IssueTokens(u: User, d: Draw, setFault: Option<string>) returns (r: Result<AuthResponse, AuthError>)
      requires Valid()
      modifies tokens
      ensures authSvc == null ==> r == Failure(Other("auth service unavailable")) && tokens.redis == old(tokens.redis)
      ensures authSvc != null ==> IssuedAs(authSvc.crypto, authSvc.cfg, u, d, setFault, r, old(tokens.redis), tokens.redis)
    {
      if authSvc == null {
        return Failure(Other("auth service unavailable"));
      }
      r := authSvc.IssueTokens(u, d, setFault);
    }

    /** `HandleGitHubCallback`. */
    method HandleGitHubCallback(code: string, api: GitHubApi, d: Draw, f: Faults) returns (r: Result<AuthResponse, AuthError>)
      requires Valid()
      modifies users, tokens
      ensures Valid()
      ensures var (s, after) := GitHubAdmission(api, cfg, code, old(users.rows), d, f.db, f.dbInsert);
        && users.rows == after
        && (s.Failure? ==> r == Failure(s.error) && tokens.redis == old(tokens.redis))
        && (s.Success? && authSvc == null ==> r == Failure(Other("auth service unavailable")) && tokens.redis == old(tokens.redis))
        && (s.Success? && authSvc != null ==> IssuedAs(authSvc.crypto, authSvc.cfg, s.value, d, f.redisSet, r, old(tokens.redis), tokens.redis))
    {
      var tokenResp := api.exchange(GitHubExchangeParams(cfg, code));
      if tokenResp.Failure? {
        return Failure(Other(tokenResp.error));
      }
      var userInfo := GitHubProfile(api, tokenResp.value);
      if userInfo.Failure? {
        return Failure(Other(userInfo.error));
      }
      var gitHubId := Decimal(userInfo.value.id);
      var user := users.Get(ByGitHubId, gitHubId, f.db);
      if user.Failure? {
        if user.error == UserNotFound {
          var stamped, err := users.Create(GitHubAccount(userInfo.value), d.newUserId, d.now, f.dbInsert);
          if err.Some? {
            return Failure(Repo(err.value));
          }
          user := Success(stamped);
        } else {
          return Failure(Repo(user.error));
        }
      }
      r := IssueTokens(user.value, d, f.redisSet);
    }

    /** `HandleGoogleCallback`. */
    method HandleGoogleCallback(code: string, api: GoogleApi, d: Draw, f: Faults) returns (r: Result<AuthResponse, AuthError>)
      requires Valid()
      modifies users, tokens
      ensures Valid()
      ensures var (s, after) := GoogleAdmission(api, cfg, code, old(users.rows), d, f.db, f.dbInsert);
        && users.rows == after
        && (s.Failure? ==> r == Failure(s.error) && tokens.redis == old(tokens.redis))
        && (s.Success? && authSvc == null ==> r == Failure(Other("auth service unavailable")) && tokens.redis == old(tokens.redis))
        && (s.Success? && authSvc != null ==> IssuedAs(authSvc.crypto, authSvc.cfg, s.value, d, f.redisSet, r, old(tokens.redis), tokens.redis))
    {
      var tokenResp := api.exchange(GoogleExchangeParams(cfg, code));
      if tokenResp.Failure? {
        return Failure(Other(tokenResp.error));
      }
      var userInfo := api.user(tokenResp.value);
      if userInfo.Failure? {
        return Failure(Other(userInfo.error));
      }
      var user := users.Get(ByGoogleId, userInfo.value.id, f.db);
      if user.Failure? {
        if user.error == UserNotFound {
          var username := GenerateUsername(userInfo.value.email);
          var account := User("", userInfo.value.email, username, "", Some(userInfo.value.picture),
                              None, Some(userInfo.value.id), 0, 0);
          var stamped, err := users.Create(account, d.newUserId, d.now, f.dbInsert);
          if err.Some? {
            return Failure(Repo(err.value));
          }
          user := Success(stamped);
        } else {
          return Failure(Repo(user.error));
        }
      }
      r := IssueTokens(user.value, d, f.redisSet);
    }
  }
}
