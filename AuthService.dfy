/**
 * The auth service (internal/service/auth_service.go): registration, login,
 * refresh-token rotation, logout and access-token validation over the user
 * table and the refresh-token store.
 *
 * bcrypt, JWT signing and parsing, UUID parsing and crypto/rand are opaque:
 * they are the fields of a `Crypto` value and of the per-call `Draw`.  The
 * clock is the `now` of the draw, in whole seconds.
 */
module AuthService {
  import opened Wrappers
  import opened Models
  import Config
  import Text
  import opened UserRepository
  import opened TokenRepository

  datatype AuthError =
    | InvalidCredentials
    | TokenExpired
    | InvalidToken
    | Repo(error: RepoError)
    /** An error from bcrypt, the JWT library, crypto/rand or Redis, returned unchanged. */
    | Other(message: string)

  /** `err.Error()`. */
  function ErrorText(e: AuthError): string
  {
    match e
    case InvalidCredentials => "invalid credentials"
    case TokenExpired => "token expired"
    case InvalidToken => "invalid token"
    case Repo(r) => RepoErrorText(r)
    case Other(m) => m
  }

  /** The `alg` of a token, as the JWT library's signing-method types. */
  datatype SigningMethod = HS256 | HS384 | HS512 | RS256 | RS384 | RS512 | ES256 | ES384 | ES512 | PS256 | EdDSA | NoneAlg

  /** `token.Method.(*jwt.SigningMethodHMAC)` succeeds. */
  predicate IsHmac(m: SigningMethod)
  {
    m.HS256? || m.HS384? || m.HS512?
  }

  /** A claim value as JSON decoding leaves it in `jwt.MapClaims`. */
  datatype ClaimValue = CString(s: string) | CNumber(n: int) | COther

  /**
   * A parsed token: its method, its claims, and the key its signature was made
   * with (signatures are taken to be unforgeable, so a signature checks out
   * against exactly that key).
   */
  datatype Jwt = Jwt(alg: SigningMethod, claims: map<string, ClaimValue>, key: string)

  datatype Crypto = Crypto(
    /** `bcrypt.GenerateFromPassword(password, cost)` with the salt it draws. */
    hash: (string, int, string) -> Result<string, string>,
    /** `bcrypt.CompareHashAndPassword(hash, password) == nil`. */
    compare: (string, string) -> bool,
    /** `jwt.NewWithClaims(method, claims).SignedString(key)`. */
    sign: Jwt -> Result<string, string>,
    /** Decoding the compact form of a token, before its signature is checked. */
    parse: string -> Option<Jwt>,
    /** `uuid.Parse(s).String()`: the canonical form, if `s` is a UUID. */
    canonicalUuid: string -> Option<string>)

  /** A signed token decodes to what was signed, and a bcrypt hash accepts its password. */
  ghost predicate Coherent(c: Crypto)
  {
    && (forall j, t :: c.sign(j) == Success(t) ==> c.parse(t) == Some(j))
    && (forall p, cost, salt, h :: c.hash(p, cost, salt) == Success(h) ==> c.compare(h, p))
  }

  /** What one call draws from outside: the clock, a new user id, a bcrypt salt and 32 random bytes (base64url). */
  datatype Draw = Draw(now: int, newUserId: string, salt: string, randomToken: Result<string, string>)

  /**
   * Failures of the stores during one call: the database's first query, the
   * insert that follows a lookup (the OAuth find-or-create), and Redis
   * GET / SET / DEL.
   */
  datatype Faults = Faults(db: Option<string>, dbInsert: Option<string>, redisGet: Option<string>, redisSet: Option<string>, redisDel: Option<string>)

  // ---------------------------------------------------------------------
  // Pure parts: token generation, the stored record, validation
  // ---------------------------------------------------------------------

  /** The claims `generateAccessToken` signs. */
  function AccessClaims(cfg: Config.Config, u: User, now: int): map<string, ClaimValue>
  {
    map[
      "user_id" := CString(u.id),
      "email" := CString(u.email),
      "username" := CString(u.username),
      "exp" := CNumber(now + cfg.jwtExpiryMinutes * 60),
      "iat" := CNumber(now)]
  }

  /** `generateTokens`: an HS256 access token, then a random refresh token. */
  function GenerateTokens(c: Crypto, cfg: Config.Config, u: User, d: Draw): (r: Result<TokenPair, AuthError>)
    ensures r.Success? <==> c.sign(Jwt(HS256, AccessClaims(cfg, u, d.now), cfg.jwtSecret)).Success? && d.randomToken.Success?
    ensures r.Success? ==> r.value.refreshToken == d.randomToken.value
    ensures r.Success? ==> r.value.expiresIn == cfg.jwtExpiryMinutes * 60
    ensures r.Failure? ==> r.error.Other?
  {
    match c.sign(Jwt(HS256, AccessClaims(cfg, u, d.now), cfg.jwtSecret))
    case Failure(m) => Failure(Other(m))
    case Success(access) =>
      match d.randomToken
      case Failure(m) => Failure(Other(m))
      case Success(refresh) => Success(TokenPair(access, refresh, cfg.jwtExpiryMinutes * 60))
  }

  /** The refresh-token lifetime, `24h * RefreshExpiryDays`, in seconds. */
  function RefreshLifetime(cfg: Config.Config): int
  {
    cfg.refreshExpiryDays * 24 * 3600
  }

  /**
   * Go computes both lifetimes as `time.Duration`, an int64 count of
   * nanoseconds: `time.Minute * JWTExpiryMinutes` and
   * `time.Hour * 24 * RefreshExpiryDays`.  These bounds are the largest
   * settings (in either direction) whose products fit; beyond them the
   * program's durations wrap around and the model's unbounded ones part
   * from them.
   */
  const MaxJwtMinutes := 153_722_867
  const MaxRefreshDays := 106_751

  const NanosPerMinute := 60 * 1_000_000_000
  const NanosPerDay := 24 * 3600 * 1_000_000_000

  /** The settings under which Go's duration arithmetic does not wrap: both nanosecond products lie in the int64 range. */
  predicate DurationsFit(cfg: Config.Config): (b: bool)
    ensures b ==>
      && Text.MinInt64 <= cfg.jwtExpiryMinutes * NanosPerMinute <= Text.MaxInt64
      && Text.MinInt64 <= cfg.refreshExpiryDays * NanosPerDay <= Text.MaxInt64
  {
    && -MaxJwtMinutes <= cfg.jwtExpiryMinutes <= MaxJwtMinutes
    && -MaxRefreshDays <= cfg.refreshExpiryDays <= MaxRefreshDays
  }

  /** The bounds are tight: one more minute or day, either way, leaves the int64 range. */
  lemma DurationBoundsTight()
    ensures (MaxJwtMinutes + 1) * NanosPerMinute > Text.MaxInt64 && -(MaxJwtMinutes + 1) * NanosPerMinute < Text.MinInt64
    ensures (MaxRefreshDays + 1) * NanosPerDay > Text.MaxInt64 && -(MaxRefreshDays + 1) * NanosPerDay < Text.MinInt64
  {
  }

  /** The record `storeRefreshToken` writes: its expiry lies one refresh lifetime after now. */
  function StoredRecord(cfg: Config.Config, u: User, now: int): (r: RefreshTokenData)
    ensures r.expiresAt - now == RefreshLifetime(cfg)
    ensures r.userId == u.id && r.email == u.email
  {
    RefreshTokenData(u.id, u.email, now + RefreshLifetime(cfg))
  }

  /** The outcome of `ValidateToken`; a missing or non-string identity claim makes the type assertion panic. */
  datatype Validation = Valid(claims: Claims) | Rejected(error: AuthError) | Panics

  /** The JWT library's time checks: `exp`, if present, lies after now; `nbf`, if present, not after now. */
  predicate TimeClaimsHold(claims: map<string, ClaimValue>, now: int)
  {
    && ("exp" in claims ==> claims["exp"].CNumber? && now < claims["exp"].n)
    && ("nbf" in claims ==> claims["nbf"].CNumber? && claims["nbf"].n <= now)
  }

  function StringClaim(claims: map<string, ClaimValue>, key: string): Option<string>
  {
    if key in claims && claims[key].CString? then Some(claims[key].s) else None
  }

  /**
   * `ValidateToken`: a token that parses, is signed with HMAC under the
   * secret and passes the time checks carries the token's own `user_id`,
   * `email` and `username`; if one of those is missing or not a string, the
   * type assertion panics.  Every other failure is ErrInvalidToken.
   */
  function ValidateToken(c: Crypto, secret: string, now: int, token: string): (r: Validation)
    ensures r.Rejected? ==> r.error == InvalidToken
    ensures c.parse(token).None? ==> r == Rejected(InvalidToken)
    ensures c.parse(token).Some? && !IsHmac(c.parse(token).value.alg) ==> r == Rejected(InvalidToken)
    ensures r.Valid? <==> (
      && c.parse(token).Some? && IsHmac(c.parse(token).value.alg)
      && c.parse(token).value.key == secret && TimeClaimsHold(c.parse(token).value.claims, now)
      && StringClaim(c.parse(token).value.claims, "user_id").Some?
      && StringClaim(c.parse(token).value.claims, "email").Some?
      && StringClaim(c.parse(token).value.claims, "username").Some?)
    ensures r.Valid? ==>
      var claims := c.parse(token).value.claims;
      r.claims == Claims(StringClaim(claims, "user_id").value, StringClaim(claims, "email").value,
                         StringClaim(claims, "username").value)
    ensures r.Panics? <==> (
      && c.parse(token).Some? && IsHmac(c.parse(token).value.alg)
      && c.parse(token).value.key == secret && TimeClaimsHold(c.parse(token).value.claims, now)
      && (|| StringClaim(c.parse(token).value.claims, "user_id").None?
          || StringClaim(c.parse(token).value.claims, "email").None?
          || StringClaim(c.parse(token).value.claims, "username").None?))
  {
    match c.parse(token)
    case None => Rejected(InvalidToken)
    case Some(t) =>
      if !IsHmac(t.alg) || t.key != secret || !TimeClaimsHold(t.claims, now) then Rejected(InvalidToken)
      else
        match (StringClaim(t.claims, "user_id"), StringClaim(t.claims, "email"), StringClaim(t.claims, "username"))
        case (Some(id), Some(email), Some(name)) => Valid(Claims(id, email, name))
        case _ => Panics
  }

  /**
   * An access token issued at `issued` validates at `now` exactly while
   * `now` is before its expiry, `expiresIn` seconds after issue, and then
   * carries the user's identity.
   */
  lemma IssuedTokenValidates(c: Crypto, cfg: Config.Config, u: User, d: Draw, now: int)
    requires Coherent(c) && GenerateTokens(c, cfg, u, d).Success? && DurationsFit(cfg)
    ensures var p := GenerateTokens(c, cfg, u, d).value;
      ValidateToken(c, cfg.jwtSecret, now, p.accessToken)
        == if now < d.now + p.expiresIn then Valid(Claims(u.id, u.email, u.username)) else Rejected(InvalidToken)
  {
    var j := Jwt(HS256, AccessClaims(cfg, u, d.now), cfg.jwtSecret);
    var p := GenerateTokens(c, cfg, u, d).value;
    assert c.sign(j) == Success(p.accessToken);
    assert c.parse(p.accessToken) == Some(j);
  }

  /** A token signed with any key other than the secret is rejected. */
  lemma ForeignKeyRejected(c: Crypto, secret: string, now: int, token: string)
    requires c.parse(token).Some? && c.parse(token).value.key != secret
    ensures ValidateToken(c, secret, now, token) == Rejected(InvalidToken)
  {
  }

  /**
   * Login's check: an unknown e-mail, a failing lookup and a wrong password
   * all give the same `ErrInvalidCredentials`.
   */
  function Authenticate(c: Crypto, rows: seq<User>, req: LoginRequest, fault: Option<string>): (r: Result<User, AuthError>)
    ensures r.Failure? ==> r.error == InvalidCredentials
    ensures r.Success? <==> (
      && fault.None? && (exists u :: u in rows && u.email == req.email)
      && c.compare(Select(rows, ByEmail, req.email, None).value.passwordHash, req.password))
    ensures r.Success? ==> r.value in rows && r.value.email == req.email
  {
    match Select(rows, ByEmail, req.email, fault)
    case Failure(_) => Failure(InvalidCredentials)
    case Success(u) => if c.compare(u.passwordHash, req.password) then Success(u) else Failure(InvalidCredentials)
  }

  /** Unknown e-mail and wrong password cannot be told apart by the error. */
  lemma LoginErrorsIndistinguishable(c: Crypto, rows: seq<User>, req: LoginRequest, u: User)
    requires Unique(rows) && u in rows && u.email == req.email && !c.compare(u.passwordHash, req.password)
    ensures Authenticate(c, rows, req, None) == Authenticate(c, [], req, None) == Failure(InvalidCredentials)
  {
    SelectUnique(rows, ByEmail, req.email, u);
  }

  /** A user registered with a password logs in with it (given a coherent bcrypt). */
  lemma RegisteredPasswordAccepted(c: Crypto, rows: seq<User>, s: User, password: string, cost: int, salt: string)
    requires Coherent(c) && Unique(rows) && InsertError(rows, s, None).None?
    requires c.hash(password, cost, salt) == Success(s.passwordHash)
    ensures Authenticate(c, rows + [s], LoginRequest(s.email, password), None) == Success(s)
  {
    CreateThenGet(rows, s);
  }

  /** The user `Register` builds before `Create` stamps it: e-mail, username and hash only. */
  function Account(req: RegisterRequest, hash: string): User
  {
    User("", req.email, req.username, hash, None, None, None, 0, 0)
  }

  function Respond(u: User, p: TokenPair): AuthResponse
  {
    AuthResponse(ToResponse(u), p.accessToken, p.refreshToken, p.expiresIn)
  }

  /** The store after `DeleteRefreshToken(token)`, whose error the callers ignore. */
  function Deleted(redis: map<string, Entry>, token: string, fault: Option<string>): map<string, Entry>
  {
    if fault.None? then redis - {Key(token)} else redis
  }

  /**
   * The common tail of Register, Login, RefreshToken and the OAuth
   * `issueTokens`: generate a pair, store the refresh token for `u`, answer
   * with both; a failure at either step is returned and nothing is stored.
   */
  ghost predicate IssuedAs(c: Crypto, cfg: Config.Config, u: User, d: Draw, setFault: Option<string>,
                           r: Result<AuthResponse, AuthError>, before: map<string, Entry>, after: map<string, Entry>)
  {
    match GenerateTokens(c, cfg, u, d)
    case Failure(e) => r == Failure(e) && after == before
    case Success(p) =>
      if setFault.Some? then r == Failure(Other(setFault.value)) && after == before
      else
        && r == Success(Respond(u, p))
        && after == before[Key(p.refreshToken) := Entry(Json(StoredRecord(cfg, u, d.now)), Deadline(d.now, RefreshLifetime(cfg)))]
  }

  /**
   * The checks `RefreshToken` makes before rotating: the record must still be
   * in Redis and readable (else ErrInvalidToken), not past its expiry stamp
   * (else ErrTokenExpired), name a UUID (else ErrInvalidToken) and a user that
   * the lookup finds (else the lookup's error).
   */
  function RefreshSubject(c: Crypto, rows: seq<User>, redis: map<string, Entry>, token: string, now: int, f: Faults)
    : (r: Result<User, AuthError>)
    ensures f.redisGet.Some? || Key(token) !in redis ==> r == Failure(InvalidToken)
    ensures Key(token) in redis && !Live(redis[Key(token)], now) ==> r == Failure(InvalidToken)
    ensures r.Failure? ==> r.error in {InvalidToken, TokenExpired} || r.error.Repo?
    ensures r.Failure? && r.error == TokenExpired <==> (
      && f.redisGet.None? && Lookup(redis, token, now).Success? && now > Lookup(redis, token, now).value.expiresAt)
    ensures r.Success? ==> (
      && Lookup(redis, token, now).Success? && now <= Lookup(redis, token, now).value.expiresAt
      && c.canonicalUuid(Lookup(redis, token, now).value.userId) == Some(r.value.id) && r.value in rows)
  {
    if f.redisGet.Some? then Failure(InvalidToken)
    else
      match Lookup(redis, token, now)
      case Failure(_) => Failure(InvalidToken)
      case Success(data) =>
        if now > data.expiresAt then Failure(TokenExpired)
        else
          match c.canonicalUuid(data.userId)
          case None => Failure(InvalidToken)
          case Some(id) =>
            match Select(rows, ById, id, f.db)
            case Failure(e) => Failure(Repo(e))
            case Success(u) => Success(u)
  }

  /**
   * After a successful rotation to a different token, the presented token is
   * gone: presenting it again is ErrInvalidToken.
   */
  lemma RotatedTokenIsSpent(c: Crypto, cfg: Config.Config, rows: seq<User>, before: map<string, Entry>,
                            token: string, u: User, d: Draw, r: Result<AuthResponse, AuthError>,
                            after: map<string, Entry>, later: int, f: Faults)
    requires IssuedAs(c, cfg, u, d, None, r, Deleted(before, token, None), after)
    requires r.Success? && r.value.refreshToken != token
    ensures RefreshSubject(c, rows, after, token, later, f) == Failure(InvalidToken)
  {
    var p := GenerateTokens(c, cfg, u, d).value;
    KeyInjective(p.refreshToken, token);
    assert Key(token) !in after;
  }

  /**
   * A refresh token issued at `d.now` with a positive lifetime is gone from
   * Redis once that lifetime has passed: presenting it then is
   * ErrInvalidToken, not ErrTokenExpired.
   */
  lemma IssuedTokenLapses(c: Crypto, cfg: Config.Config, rows: seq<User>, u: User, d: Draw, setFault: Option<string>,
                          r: Result<AuthResponse, AuthError>, before: map<string, Entry>, after: map<string, Entry>,
                          later: int, f: Faults)
    requires IssuedAs(c, cfg, u, d, setFault, r, before, after) && r.Success?
    requires RefreshLifetime(cfg) > 0 && later >= d.now + RefreshLifetime(cfg) && DurationsFit(cfg)
    ensures RefreshSubject(c, rows, after, r.value.refreshToken, later, f) == Failure(InvalidToken)
  {
    var p := GenerateTokens(c, cfg, u, d).value;
    assert r.value.refreshToken == p.refreshToken;
    assert after[Key(p.refreshToken)].expiresAt == Some(d.now + RefreshLifetime(cfg));
  }

  /**
   * With a positive lifetime the Redis time-to-live and the stamp in the
   * record run out together, so a record `storeRefreshToken` wrote never
   * yields ErrTokenExpired: while Redis still returns it, its stamp lies ahead.
   */
  lemma StoredRecordNeverExpiredWhileLive(c: Crypto, cfg: Config.Config, rows: seq<User>, redis: map<string, Entry>,
                                          token: string, u: User, setAt: int, now: int, f: Faults)
    requires RefreshLifetime(cfg) > 0 && DurationsFit(cfg)
    requires Key(token) in redis && redis[Key(token)] == Entry(Json(StoredRecord(cfg, u, setAt)), Deadline(setAt, RefreshLifetime(cfg)))
    ensures RefreshSubject(c, rows, redis, token, now, f) != Failure(TokenExpired)
  {
  }

  /**
   * With a lifetime of zero days or less the record is SET without a
   * time-to-live and its stamp already lies in the past, so presenting it
   * later is ErrTokenExpired.
   */
  lemma UnboundedRecordReportsExpired(c: Crypto, cfg: Config.Config, rows: seq<User>, redis: map<string, Entry>,
                                      token: string, u: User, setAt: int, now: int, f: Faults)
    requires RefreshLifetime(cfg) <= 0 && now > setAt && f.redisGet.None? && DurationsFit(cfg)
    requires Key(token) in redis && redis[Key(token)] == Entry(Json(StoredRecord(cfg, u, setAt)), Deadline(setAt, RefreshLifetime(cfg)))
    ensures RefreshSubject(c, rows, redis, token, now, f) == Failure(TokenExpired)
  {
  }

  class AuthService {
    const users: UserTable
    const tokens: TokenStore
    const cfg: Config.Config
    const crypto: Crypto

    ghost predicate Valid()
      reads this, users
    {
      users.Valid()
    }

    constructor (users: UserTable, tokens: TokenStore, cfg: Config.Config, crypto: Crypto)
      requires users.Valid()
      ensures Valid()
      ensures this.users == users && this.tokens == tokens && this.cfg == cfg && this.crypto == crypto
    {
      this.users := users;
      this.tokens := tokens;
      this.cfg := cfg;
      this.crypto := crypto;
    }

    /** `storeRefreshToken`: the record for `u`, kept for one refresh lifetime. */
    method StoreRefreshToken(token: string, u: User, now: int, fault: Option<string>) returns (err: Option<string>)
      modifies tokens
      ensures err == fault
      ensures fault.None? ==> tokens.redis == old(tokens.redis)[Key(token) := Entry(Json(StoredRecord(cfg, u, now)), Deadline(now, RefreshLifetime(cfg)))]
      ensures fault.Some? ==> tokens.redis == old(tokens.redis)
    {
      var data := StoredRecord(cfg, u, now);
      var expiry := RefreshLifetime(cfg);
      err := tokens.StoreRefreshToken(token, data, expiry, now, fault);
    }

    /** Generate a pair for `u`, store its refresh token, answer with both. */
    method IssueTokens(u: User, d: Draw, setFault: Option<string>) returns (r: Result<AuthResponse, AuthError>)
      modifies tokens
      ensures IssuedAs(crypto, cfg, u, d, setFault, r, old(tokens.redis), tokens.redis)
    {
      var tokenPair := GenerateTokens(crypto, cfg, u, d);
      if tokenPair.Failure? {
        return Failure(tokenPair.error);
      }
      var storeErr := StoreRefreshToken(tokenPair.value.refreshToken, u, d.now, setFault);
      if storeErr.Some? {
        return Failure(Other(storeErr.value));
      }
      return Success(Respond(u, tokenPair.value));
    }

    /**
     * `Register`: hash, create, then issue; each failure returns at once, so
     * no refresh token is stored unless the user was created.
     */
    method Register(req: RegisterRequest, d: Draw, f: Faults) returns (r: Result<AuthResponse, AuthError>)
      requires Valid()
      modifies users, tokens
      ensures Valid()
      ensures crypto.hash(req.password, cfg.bcryptCost, d.salt).Failure? ==> (
        && r == Failure(Other(crypto.hash(req.password, cfg.bcryptCost, d.salt).error))
        && users.rows == old(users.rows) && tokens.redis == old(tokens.redis))
      ensures crypto.hash(req.password, cfg.bcryptCost, d.salt).Success? ==>
        var s := Stamped(Account(req, crypto.hash(req.password, cfg.bcryptCost, d.salt).value), d.newUserId, d.now);
        var err := InsertError(old(users.rows), s, f.db);
        && (err.Some? ==> r == Failure(Repo(err.value)) && users.rows == old(users.rows) && tokens.redis == old(tokens.redis))
        && (err.None? ==> users.rows == old(users.rows) + [s] && IssuedAs(crypto, cfg, s, d, f.redisSet, r, old(tokens.redis), tokens.redis))
    {
      var hashed := crypto.hash(req.password, cfg.bcryptCost, d.salt);
      if hashed.Failure? {
        return Failure(Other(hashed.error));
      }
      var user := Account(req, hashed.value);
      var stamped, err := users.Create(user, d.newUserId, d.now, f.db);
      if err.Some? {
        return Failure(Repo(err.value));
      }
      r := IssueTokens(stamped, d, f.redisSet);
    }

    /** `Login`: any failure to find the user or to match the password is ErrInvalidCredentials. */
    method Login(req: LoginRequest, d: Draw, f: Faults) returns (r: Result<AuthResponse, AuthError>)
      modifies tokens
      ensures Authenticate(crypto, users.rows, req, f.db).Failure? ==>
        r == Failure(InvalidCredentials) && tokens.redis == old(tokens.redis)
      ensures Authenticate(crypto, users.rows, req, f.db).Success? ==>
        IssuedAs(crypto, cfg, Authenticate(crypto, users.rows, req, f.db).value, d, f.redisSet, r, old(tokens.redis), tokens.redis)
    {
      var found := users.Get(ByEmail, req.email, f.db);
      if found.Failure? {
        return Failure(InvalidCredentials);
      }
      var user := found.value;
      if !crypto.compare(user.passwordHash, req.password) {
        return Failure(InvalidCredentials);
      }
      r := IssueTokens(user, d, f.redisSet);
    }

    /**
     * `RefreshToken`: after the checks of RefreshSubject, the presented token
     * is deleted and a new pair issued.  An expired token is deleted too; on
     * every other failing check the store is left alone.
     */
    method RefreshToken(token: string, d: Draw, f: Faults) returns (r: Result<AuthResponse, AuthError>)
      modifies tokens
      ensures var s := RefreshSubject(crypto, users.rows, old(tokens.redis), token, d.now, f);
        && (s.Failure? && s.error == TokenExpired ==>
              r == Failure(TokenExpired) && tokens.redis == Deleted(old(tokens.redis), token, f.redisDel))
        && (s.Failure? && s.error != TokenExpired ==> r == Failure(s.error) && tokens.redis == old(tokens.redis))
        && (s.Success? ==> IssuedAs(crypto, cfg, s.value, d, f.redisSet, r, Deleted(old(tokens.redis), token, f.redisDel), tokens.redis))
    {
      var tokenData := tokens.GetRefreshToken(token, d.now, f.redisGet);
      if tokenData.Failure? {
        return Failure(InvalidToken);
      }
      if d.now > tokenData.value.expiresAt {
        var _ := tokens.DeleteRefreshToken(token, f.redisDel);
        return Failure(TokenExpired);
      }
      var userId := crypto.canonicalUuid(tokenData.value.userId);
      if userId.None? {
        return Failure(InvalidToken);
      }
      var user := users.Get(ById, userId.value, f.db);
      if user.Failure? {
        return Failure(Repo(user.error));
      }
      var _ := tokens.DeleteRefreshToken(token, f.redisDel);
      r := IssueTokens(user.value, d, f.redisSet);
    }

    /** `Logout`: delete exactly the presented token. */
    method Logout(token: string, f: Faults) returns (err: Option<string>)
      modifies tokens
      ensures err == f.redisDel
      ensures tokens.redis == Deleted(old(tokens.redis), token, f.redisDel)
    {
      err := tokens.DeleteRefreshToken(token, f.redisDel);
    }

    /** `GetUserByID`: the public projection of the user with that id. */
    method GetUserByID(id: string, f: Faults) returns (r: Result<UserResponse, AuthError>)
      ensures Select(users.rows, ById, id, f.db).Success? ==>
        r == Success(ToResponse(Select(users.rows, ById, id, f.db).value))
      ensures Select(users.rows, ById, id, f.db).Failure? ==>
        r == Failure(Repo(Select(users.rows, ById, id, f.db).error))
    {
      var user := users.Get(ById, id, f.db);
      if user.Failure? {
        return Failure(Repo(user.error));
      }
      return Success(ToResponse(user.value));
    }
  }
}
