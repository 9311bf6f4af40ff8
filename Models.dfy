/**
 * The auth service's records (internal/models/user.go): the stored user,
 * the public projection sent to clients, the request shapes and the token
 * records.  Times are whole seconds.
 */
module Models {
  import opened Wrappers

  datatype User = User(
    id: string,
    email: string,
    username: string,
    passwordHash: string,
    avatarUrl: Option<string>,
    gitHubId: Option<string>,
    googleId: Option<string>,
    createdAt: int,
    updatedAt: int)

  datatype UserResponse = UserResponse(
    id: string,
    email: string,
    username: string,
    avatarUrl: Option<string>,
    createdAt: int)

  /** A JSON value as encoding/json writes the fields above. */
  datatype JsonValue = JString(s: string) | JNull | JTime(t: int)

  function OptionalString(o: Option<string>): JsonValue
  {
    match o
    case Some(s) => JString(s)
    case None => JNull
  }

  /**
   * The JSON object encoding/json produces for a User, following the struct
   * tags: `password_hash` is tagged "-" and never written; `github_id` and
   * `google_id` are `omitempty` and left out when nil.
   */
  function UserJson(u: User): map<string, JsonValue>
  {
    var base := map[
      "id" := JString(u.id), "email" := JString(u.email), "username" := JString(u.username),
      "avatar_url" := OptionalString(u.avatarUrl),
      "created_at" := JTime(u.createdAt), "updated_at" := JTime(u.updatedAt)];
    var withGitHub := if u.gitHubId.Some? then base["github_id" := JString(u.gitHubId.value)] else base;
    if u.googleId.Some? then withGitHub["google_id" := JString(u.googleId.value)] else withGitHub
  }

  /** The JSON object written for a UserResponse. */
  function ResponseJson(r: UserResponse): map<string, JsonValue>
  {
    map[
      "id" := JString(r.id), "email" := JString(r.email), "username" := JString(r.username),
      "avatar_url" := OptionalString(r.avatarUrl), "created_at" := JTime(r.createdAt)]
  }

  const PublicKeys: set<string> := {"id", "email", "username", "avatar_url", "created_at"}

  /** `User.ToResponse`: the public projection of a user. */
  function ToResponse(u: User): (r: UserResponse)
    ensures ResponseJson(r) == map k | k in UserJson(u) && k in PublicKeys :: UserJson(u)[k]
  {
    UserResponse(u.id, u.email, u.username, u.avatarUrl, u.createdAt)
  }

  /** No JSON object for a user, and none for its public projection, has a password field. */
  lemma PasswordNeverSerialised(u: User)
    ensures "password_hash" !in UserJson(u)
    ensures "password_hash" !in ResponseJson(ToResponse(u))
    ensures ResponseJson(ToResponse(u)).Keys !! {"github_id", "google_id", "updated_at"}
  {
  }

  datatype RegisterRequest = RegisterRequest(email: string, username: string, password: string)

  datatype LoginRequest = LoginRequest(email: string, password: string)

  datatype AuthResponse = AuthResponse(
    user: UserResponse, accessToken: string, refreshToken: string, expiresIn: int)

  datatype Claims = Claims(userId: string, email: string, username: string)

  datatype TokenPair = TokenPair(accessToken: string, refreshToken: string, expiresIn: int)

  datatype RefreshTokenData = RefreshTokenData(userId: string, email: string, expiresAt: int)
}
