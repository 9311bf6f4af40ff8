/**
 * The auth service's configuration (internal/config/config.go): settings
 * read from the process environment with defaults, and the CORS origin list.
 * The environment is a map; a variable that is absent is unset.
 */
module Config {
  import opened Wrappers
  import opened Text

  type Environment = map<string, string>

  datatype Config = Config(
    port: string,
    environment: string,
    databaseUrl: string,
    redisUrl: string,
    frontendUrl: string,
    jwtSecret: string,
    jwtExpiryMinutes: int,
    refreshExpiryDays: int,
    gitHubClientId: string,
    gitHubClientSecret: string,
    googleClientId: string,
    googleClientSecret: string,
    oauthCallbackUrl: string,
    corsOrigins: string,
    bcryptCost: int,
    rateLimitPerMin: int,
    smtpHost: string,
    smtpPort: string,
    smtpUsername: string,
    smtpPassword: string,
    fromEmail: string)

  /** `getEnv`: the variable's value when it is set and non-empty, else the default. */
  function GetEnv(env: Environment, key: string, default: string): (r: string)
    ensures r == default || (key in env && env[key] == r)
    ensures r == "" ==> default == ""
    ensures key !in env ==> r == default
    ensures key in env && env[key] != "" ==> r == env[key]
    ensures key !in env || env[key] == "" ==> r == default
  {
    if key in env && env[key] != "" then env[key] else default
  }

  /** `getEnvInt`: the variable read with strconv.Atoi, or the default when empty or not an integer. */
  function GetEnvInt(env: Environment, key: string, default: int): (r: int)
    ensures r == default || (key in env && Atoi(env[key]) == Some(r))
    ensures key !in env || Atoi(env[key]).None? ==> r == default
    ensures key in env && Atoi(env[key]).Some? ==> r == Atoi(env[key]).value
  {
    var val := GetEnv(env, key, "");
    if val == "" then default
    else match Atoi(val)
      case Some(n) => n
      case None => default
  }

  /** A variable holding the decimal form of an int64 is read back as that number. */
  lemma GetEnvIntReadsDecimal(env: Environment, key: string, default: int, n: int)
    requires MinInt64 <= n <= MaxInt64
    requires key in env && env[key] == Decimal(n)
    ensures GetEnvInt(env, key, default) == n
  {
    AtoiDecimal(n);
  }

  /** `Load`: every setting with its default; an empty DATABASE_URL is fatal. */
  function Load(env: Environment): (r: Result<Config, string>)
    ensures r.Failure? <==> GetEnv(env, "DATABASE_URL", "") == ""
    ensures r.Failure? ==> r.error == "DATABASE_URL is required"
    ensures r.Success? ==> r.value.databaseUrl != ""
  {
    var cfg := Config(
      GetEnv(env, "PORT", "8001"),
      GetEnv(env, "ENVIRONMENT", "development"),
      GetEnv(env, "DATABASE_URL", ""),
      GetEnv(env, "REDIS_URL", "redis://localhost:6379"),
      GetEnv(env, "FRONTEND_URL", "http://localhost:3000"),
      GetEnv(env, "JWT_SECRET", "your-secret-key-change-in-production"),
      GetEnvInt(env, "JWT_EXPIRY_MINUTES", 15),
      GetEnvInt(env, "REFRESH_EXPIRY_DAYS", 30),
      GetEnv(env, "GITHUB_CLIENT_ID", ""),
      GetEnv(env, "GITHUB_CLIENT_SECRET", ""),
      GetEnv(env, "GOOGLE_CLIENT_ID", ""),
      GetEnv(env, "GOOGLE_CLIENT_SECRET", ""),
      GetEnv(env, "OAUTH_CALLBACK_URL", "http://localhost:8001/api/v1/auth/oauth"),
      GetEnv(env, "CORS_ORIGINS", "http://localhost:3000"),
      GetEnvInt(env, "BCRYPT_COST", 12),
      GetEnvInt(env, "RATE_LIMIT_PER_MIN", 100),
      GetEnv(env, "SMTP_HOST", ""),
      GetEnv(env, "SMTP_PORT", "587"),
      GetEnv(env, "SMTP_USERNAME", ""),
      GetEnv(env, "SMTP_PASSWORD", ""),
      GetEnv(env, "FROM_EMAIL", "noreply@flowmate.dev"));
    if cfg.databaseUrl == "" then Failure("DATABASE_URL is required") else Success(cfg)
  }

  /** With only DATABASE_URL set, the numeric settings take their defaults. */
  lemma LoadDefaults(url: string)
    requires url != ""
    ensures var r := Load(map["DATABASE_URL" := url]);
      && r.Success?
      && r.value.jwtExpiryMinutes == 15 && r.value.refreshExpiryDays == 30
      && r.value.bcryptCost == 12 && r.value.rateLimitPerMin == 100
      && r.value.databaseUrl == url && r.value.port == "8001"
  {
  }

  /** What one comma-separated part contributes: its trimmed form, unless that is empty. */
  function CleanPart(part: string): seq<string>
  {
    var p := GoTrimSpace(part);
    if p != "" then [p] else []
  }

  /** The origins `GetAllowedOrigins` keeps from already split parts, in order. */
  function CleanOrigins(parts: seq<string>): seq<string>
  {
    if |parts| == 0 then [] else CleanOrigins(parts[..|parts| - 1]) + CleanPart(parts[|parts| - 1])
  }

  /** The list `GetAllowedOrigins` returns for a comma-separated setting. */
  function AllowedOrigins(origins: string): seq<string>
  {
    CleanOrigins(Split(origins, ','))
  }

  /** A part's contribution is non-empty, comma-free, and trimmed at both ends. */
  lemma CleanPartShape(part: string)
    requires ',' !in part
    ensures forall o :: o in CleanPart(part) ==>
      o != "" && ',' !in o && !GoIsSpace(o[0]) && !GoIsSpace(o[|o| - 1])
  {
    var p := GoTrimSpace(part);
    GoTrimSpaceSubstring(part, ',');
    assert CleanPart(part) == if p != "" then [p] else [];
  }

  /** Every kept origin is non-empty, trimmed, and free of the separator. */
  lemma {:induction false} CleanOriginsShape(parts: seq<string>)
    requires forall p :: p in parts ==> ',' !in p
    ensures forall o :: o in CleanOrigins(parts) ==>
      o != "" && ',' !in o && !GoIsSpace(o[0]) && !GoIsSpace(o[|o| - 1])
    decreases |parts|
  {
    if |parts| > 0 {
      var init := parts[..|parts| - 1];
      assert forall p :: p in init ==> p in parts;
      CleanOriginsShape(init);
      assert parts[|parts| - 1] in parts;
      CleanPartShape(parts[|parts| - 1]);
    }
  }

  lemma AllowedOriginsShape(origins: string)
    ensures forall o :: o in AllowedOrigins(origins) ==>
      o != "" && ',' !in o && !GoIsSpace(o[0]) && !GoIsSpace(o[|o| - 1])
  {
    SplitJoin(origins, ',');
    CleanOriginsShape(Split(origins, ','));
  }

  /** `GetAllowedOrigins`: split on commas, trim each part, keep the non-empty ones in order. */
  method GetAllowedOrigins(origins: string) returns (out: seq<string>)
    ensures out == AllowedOrigins(origins)
  {
    var parts := Split(origins, ',');
    out := KeepTrimmed(parts);
  }

  /** The loop of `GetAllowedOrigins` over the parts. */
  method KeepTrimmed(parts: seq<string>) returns (out: seq<string>)
    ensures out == CleanOrigins(parts)
  {
    out := [];
    var i := 0;
    while i < |parts|
      invariant 0 <= i <= |parts|
      invariant out == CleanOrigins(parts[..i])
    {
      var p := GoTrimSpace(parts[i]);
      assert parts[..i + 1][..i] == parts[..i];
      if p != "" {
        out := out + [p];
      }
      i := i + 1;
    }
    assert parts[..i] == parts;
  }
}
