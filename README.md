# flowmate: the auth service and the web client's state, in Dafny

This project models two parts of the flowmate collaborative editor.

**The authentication service (Go, Fiber, PostgreSQL, Redis).**
- It registers users with e-mail and password, and logs them in.
- It issues HMAC-signed access tokens, plus opaque refresh tokens kept in Redis.
- It rotates a refresh token on every use.
- It signs users in through GitHub and Google OAuth.
- It limits requests per route and per client with Redis counters.
- It maps every error to one JSON shape.

**The browser client's state (TypeScript, React, zustand).**
- The API client: it stores the tokens, attaches the bearer header, and refreshes once on a 401.
- The auth service wrapper and the persisted auth store.
- The registration form's validation.
- The editor store: open tabs and the active file.
- The file tree.
- The socket wrapper and the collaboration hook.
- The presence strip, the user menu, the terminal panel and the AI chat panel.

**Modules.** There is one Dafny module per source file.
- Wrappers: `Option` and `Result`.
- Text: the string functions the sources rely on. These are Go's `strings.TrimSpace`, `strings.Split` and `strconv.Atoi`, and JavaScript's `trim`, `parseInt`, `toUpperCase`, `slice` and UTF-16 `length`.

**How the model is shaped.**
- Code that computes a value becomes functions and lemmas.
- Objects whose fields change become classes with `modifies` frames. Examples are the token store, the user table, the rate limiter, the API client, the stores, and the UI components that hold state.
- Whatever the code cannot see becomes a parameter of the call:
  - the clock, random draws and new UUIDs;
  - bcrypt and JWT signing and parsing;
  - URL escaping;
  - the OAuth providers' HTTP answers;
  - database and Redis failures;
  - the replies the web client receives from the server.

## Model

| member | source | states |
|---|---|---|
| Config.GetEnv | services/auth-service/internal/config/config.go:78-83 | a set, non-empty variable is returned as it is; an unset or empty one gives the default |
| Config.GetEnvInt | services/auth-service/internal/config/config.go:85-94 | a variable that `Atoi` reads gives the number read; an unset, empty or non-numeric variable gives the default |
| Config.GetEnvIntReadsDecimal | services/auth-service/internal/config/config.go:85-94 | a variable holding the decimal form of any 64-bit integer is read back as that integer |
| Config.Load | services/auth-service/internal/config/config.go:40-76 | loading fails exactly when DATABASE_URL is unset or empty, with the fatal message; a loaded configuration has a database URL |
| Config.LoadDefaults | services/auth-service/internal/config/config.go:44-68 | with only DATABASE_URL set, the port is 8001, access tokens last 15 minutes, refresh tokens 30 days, the bcrypt cost is 12 and the limit is 100 requests a minute |
| Config.AllowedOriginsShape | services/auth-service/internal/config/config.go:96-106 | every origin returned is non-empty, has no comma and has no surrounding white space |
| Config.GetAllowedOrigins | services/auth-service/internal/config/config.go:96-106 | the loop's result equals the specification function of the split, trimmed and non-empty parts |
| Config.KeepTrimmed | services/auth-service/internal/config/config.go:99-105 | the loop keeps the trimmed non-empty parts in order |
| Config.CleanOriginsShape | services/auth-service/internal/config/config.go:99-105 | for comma-free parts, each kept origin is non-empty, trimmed and comma-free |
| Text.SplitJoin | services/auth-service/internal/config/config.go:97 | joining `strings.Split`'s pieces with the separator gives back the input, and no piece holds the separator |
| Text.JoinSplit | services/auth-service/internal/config/config.go:97 | splitting a join of separator-free pieces gives back the pieces |
| Text.SplitCount | services/auth-service/internal/config/config.go:97 | split gives one more piece than the separator occurs |
| Text.Split | services/auth-service/internal/config/config.go:97 | `strings.Split` gives at least one piece, and no piece holds the separator |
| Text.GoTrimSpace | services/auth-service/internal/config/config.go:100 | `strings.TrimSpace` never lengthens its input, and a non-empty result starts and ends with a character that is not white space |
| Text.AtoiDecimal | services/auth-service/internal/config/config.go:90 | `Atoi` reads the decimal form of every 64-bit integer back as that integer |
| Text.Atoi | services/auth-service/internal/config/config.go:90 | every number `strconv.Atoi` reads lies in the 64-bit range |
| Text.TrimEndRemoves | services/auth-service/internal/service/oauth_service.go:45 | trimming on the right removes only a suffix of the class's characters and leaves a string that does not end with one |
| Text.TrimStartRemoves | apps/web/src/lib/api-client.ts:154 | trimming on the left removes only a prefix of the class's characters and leaves a string that does not start with one |
| Text.JsTrim | apps/web/src/components/editor/terminal.tsx:18 | `trim()` never lengthens its input, and a non-empty result starts and ends with a character that is not JavaScript white space |
| Text.JsTrimEmptyIffBlank | apps/web/src/components/editor/terminal.tsx:18 | `trim()` gives "" exactly when every character is JavaScript white space |
| Text.ParseIntJs | apps/web/src/lib/api-client.ts:154 | `parseInt` of a blank string, or of one starting with a character that is neither white space, a sign nor a digit, is NaN |
| Text.ParseIntDecimal | apps/web/src/lib/api-client.ts:154 | `parseInt` reads the decimal form of every integer back as that integer |
| Text.Utf16Length | apps/web/src/components/auth/register-form.tsx:41-57 | a string's `length` lies between its number of code points and twice that number |
| Text.Utf16LengthBmp | apps/web/src/components/auth/register-form.tsx:41-57 | for text made only of Basic Multilingual Plane characters, `length` is the number of characters |
| Text.ToUpper | apps/web/src/components/dashboard/user-nav.tsx:43 | upper-casing keeps the length and treats each character on its own: no ASCII lower-case letter remains, each one becomes the capital 32 code points below, and every other character is kept |
| Text.ToUpperIdempotent | apps/web/src/components/dashboard/user-nav.tsx:43 | upper-casing twice is upper-casing once, and upper-casing a prefix gives the prefix of the upper-cased string |
| Text.Prefix | apps/web/src/components/collaboration/user-presence.tsx:21 | `slice(0, n)` is a prefix of length min(length, n) |
| Models.ToResponse | services/auth-service/internal/models/user.go:29-37 | the response's JSON is the user's JSON cut down to the public keys |
| Models.PasswordNeverSerialised | services/auth-service/internal/models/user.go:13 | the password hash is never serialised; the public response also omits the provider ids and the update stamp |
| UserRepository.FindFirst | services/auth-service/internal/repository/user_repository.go:78-91 | the index found is the first row matching the column; none is found exactly when no row matches |
| UserRepository.Select | services/auth-service/internal/repository/user_repository.go:78-151 | a database fault is passed on; otherwise the row returned matches, and "user not found" comes exactly when no row matches |
| UserRepository.SelectUnique | services/auth-service/internal/repository/user_repository.go:78-121 | with unique id, e-mail and username columns, a lookup returns the one row that matches |
| UserRepository.UniqueMatch | services/auth-service/internal/repository/user_repository.go:78-121 | under those unique constraints, two rows matching the same value are the same row |
| UserRepository.Stamped | services/auth-service/internal/repository/user_repository.go:47-49 | insert stamps the new id and sets both time stamps to now; nothing else changes |
| UserRepository.InsertError | services/auth-service/internal/repository/user_repository.go:65-73 | insert succeeds exactly when no row shares the id, e-mail or username; a shared e-mail gives "email already exists"; a fault is passed on |
| UserRepository.InsertKeepsUnique | services/auth-service/internal/repository/user_repository.go:40-76 | a successful insert keeps the table's unique columns unique |
| UserRepository.UserTable.Get | services/auth-service/internal/repository/user_repository.go:78-151 | a lookup on the table answers as `Select` on its rows |
| UserRepository.UserTable.Create | services/auth-service/internal/repository/user_repository.go:40-76 | the stamped row is appended when the insert succeeds, the table is unchanged otherwise, and uniqueness holds |
| UserRepository.CreateThenGet | services/auth-service/internal/repository/user_repository.go:40-106 | a created user is then found by its id and by its e-mail |
| TokenRepository.Key | services/auth-service/internal/repository/token_repository.go:30 | the Redis key is the refresh-token prefix followed by the token |
| TokenRepository.KeyInjective | services/auth-service/internal/repository/token_repository.go:30 | two tokens share a key exactly when they are equal |
| TokenRepository.Deadline | services/auth-service/internal/repository/token_repository.go:35 | a SET with a positive expiry makes the key expire that many seconds later; any other expiry sets none |
| TokenRepository.Lookup | services/auth-service/internal/repository/token_repository.go:38-53 | a lookup at a given time succeeds exactly when the key is present, its time to live has not run out, and it holds a JSON record, which it returns; "not found" comes exactly when the key is absent or has expired |
| TokenRepository.StoreThenLookup | services/auth-service/internal/repository/token_repository.go:29-53 | a stored record is read back unchanged until its time to live runs out, and is "not found" from then on |
| TokenRepository.OtherTokensUnaffected | services/auth-service/internal/repository/token_repository.go:29-58 | storing or deleting one token leaves every other token's lookup as it was |
| TokenRepository.TokenStore.StoreRefreshToken | services/auth-service/internal/repository/token_repository.go:29-36 | the record is written under the token's key, expiring the given number of seconds after now; a Redis fault changes nothing and is returned |
| TokenRepository.TokenStore.GetRefreshToken | services/auth-service/internal/repository/token_repository.go:38-53 | a read fault is reported; otherwise the answer is `Lookup` at that time, so an expired key is "not found" |
| TokenRepository.TokenStore.DeleteRefreshToken | services/auth-service/internal/repository/token_repository.go:55-58 | exactly the token's key is removed; other keys keep their values; a fault changes nothing |
| TokenRepository.TokenStore.DeleteUserTokens | services/auth-service/internal/repository/token_repository.go:60-77 | exactly the live refresh keys whose readable record belongs to the user are removed, except those whose DEL fails, which stay since its error is ignored; unreadable and expired keys are skipped |
| AuthService.GenerateTokens | services/auth-service/internal/service/auth_service.go:182-198 | tokens are issued exactly when signing and the random draw both succeed; the refresh token is the draw, and expires_in is the access expiry in seconds |
| AuthService.StoredRecord | services/auth-service/internal/service/auth_service.go:221-229 | the stored record names the user and expires after the refresh lifetime |
| AuthService.DurationsFit | services/auth-service/internal/service/auth_service.go:200-229 | within these settings the nanosecond products `time.Minute * JWTExpiryMinutes` and `24h * RefreshExpiryDays` lie in the int64 range, so Go's durations equal the model's |
| AuthService.DurationBoundsTight | services/auth-service/internal/service/auth_service.go:200-229 | one more minute or day beyond the bounds, in either direction, overflows int64 |
| AuthService.ValidateToken | services/auth-service/internal/service/auth_service.go:160-180 | a token is accepted exactly when it parses, is HMAC-signed with the service's secret, its time claims hold and its `user_id`, `email` and `username` claims are strings, and the result carries exactly those three claims; when the first three checks pass but one of those claims is missing or not a string, the type assertion panics; every other rejection is "invalid token" |
| AuthService.IssuedTokenValidates | services/auth-service/internal/service/auth_service.go:182-211 | for settings within DurationsFit, an access token just issued validates within its lifetime and names the user |
| AuthService.ForeignKeyRejected | services/auth-service/internal/service/auth_service.go:162 | a token signed with another key is rejected |
| AuthService.Authenticate | services/auth-service/internal/service/auth_service.go:81-106 | login succeeds exactly when the e-mail's row exists, the lookup did not fail and bcrypt accepts the password; every failure is "invalid credentials" |
| AuthService.LoginErrorsIndistinguishable | services/auth-service/internal/service/auth_service.go:82-89 | a wrong password and an unknown e-mail give the same error |
| AuthService.RegisteredPasswordAccepted | services/auth-service/internal/service/auth_service.go:48-106 | after registration the password chosen logs the user in |
| AuthService.RefreshSubject | services/auth-service/internal/service/auth_service.go:108-127 | a read fault, or a token that is unknown, expired in Redis or unreadable, is "invalid token"; "token expired" comes exactly when a record Redis still returns has a stamp in the past; success names the stored user |
| AuthService.RotatedTokenIsSpent | services/auth-service/internal/service/auth_service.go:108-146 | after a successful refresh the old refresh token is refused |
| AuthService.IssuedTokenLapses | services/auth-service/internal/service/auth_service.go:108-111 | for settings within DurationsFit, a refresh token presented once its positive lifetime has passed is "invalid token", because Redis has dropped its key |
| AuthService.StoredRecordNeverExpiredWhileLive | services/auth-service/internal/service/auth_service.go:114-117 | for settings within DurationsFit and a positive lifetime, a record the service stored never gives "token expired": while Redis returns it, its stamp lies ahead |
| AuthService.UnboundedRecordReportsExpired | services/auth-service/internal/service/auth_service.go:221-229 | for settings within DurationsFit, a lifetime of zero days or less stores the key without expiry, and presenting it later gives "token expired" |
| AuthService.AuthService.StoreRefreshToken | services/auth-service/internal/service/auth_service.go:221-229 | the record for the token is stored, expiring in Redis one refresh lifetime after now, the same instant as its stamp |
| AuthService.AuthService.IssueTokens | services/auth-service/internal/service/auth_service.go:131-138 | the response and the new Redis state are exactly those of a token issue |
| AuthService.AuthService.Register | services/auth-service/internal/service/auth_service.go:48-79 | a hash failure or a rejected insert leaves everything unchanged; otherwise the user is created and tokens are issued for it |
| AuthService.AuthService.Login | services/auth-service/internal/service/auth_service.go:81-106 | a failed authentication is returned without touching Redis; otherwise tokens are issued for the user found |
| AuthService.AuthService.RefreshToken | services/auth-service/internal/service/auth_service.go:108-146 | a refused token changes nothing; an expired stamp deletes the token; otherwise the old token is deleted and a new pair is issued for its user; expired keys are refused as `RefreshSubject` states |
| AuthService.AuthService.Logout | services/auth-service/internal/service/auth_service.go:148-150 | the refresh token is deleted and the Redis fault, if any, is returned |
| AuthService.AuthService.GetUserByID | services/auth-service/internal/service/auth_service.go:152-158 | the public view of the row with that id, or the lookup's error |
| OAuthService.RedirectUriShape | services/auth-service/internal/service/oauth_service.go:45 | the redirect URI is the callback base without trailing slashes, then "/", the provider and "/callback" |
| OAuthService.RedirectUriIgnoresTrailingSlash | services/auth-service/internal/service/oauth_service.go:45 | a trailing slash on the callback base does not change the redirect URI |
| OAuthService.AuthParamsSorted | services/auth-service/internal/service/oauth_service.go:43-49 | both authorisation queries list their keys in sorted order, as `url.Values.Encode` writes them |
| OAuthService.AuthUrlsCarryState | services/auth-service/internal/service/oauth_service.go:41-50 | the authorisation URLs are the provider endpoint, "?", and a query that parses back to the parameters with the state |
| OAuthService.GoogleRedirectsAgree | services/auth-service/internal/service/oauth_service.go:175 | the Google code exchange sends the same redirect URI as the authorisation URL |
| OAuthService.GitHubProfile | services/auth-service/internal/service/oauth_service.go:119-149 | the profile is GitHub's; an empty e-mail is replaced from the e-mail list, and any other field is kept |
| OAuthService.UsernameOf | services/auth-service/internal/service/oauth_service.go:297-304 | the username is the prefix of the e-mail before its first "@" |
| OAuthService.UsernameOfPrefix | services/auth-service/internal/service/oauth_service.go:297-304 | any "@"-free prefix ending at the first "@" or at the end is the username |
| OAuthService.UsernameOfAddress | services/auth-service/internal/service/oauth_service.go:297-304 | the username of "local@domain" is the local part |
| OAuthService.GenerateUsername | services/auth-service/internal/service/oauth_service.go:297-304 | the loop yields `UsernameOf` the e-mail |
| OAuthService.Admitted | services/auth-service/internal/service/oauth_service.go:63-78 | a user found by provider id is returned and nothing is inserted; a lookup fault is returned and changes nothing; with no match the stamped account is appended and returned, unless the insert fails (a unique clash or its own driver fault), whose error is returned with the table unchanged; uniqueness holds |
| OAuthService.AdmittedIdempotent | services/auth-service/internal/service/oauth_service.go:63-78 | a second sign-in with the same provider id returns the same user and inserts nothing |
| OAuthService.NoLinkByEmail | services/auth-service/internal/service/oauth_service.go:211-227 | a provider account whose e-mail a password user owns is refused, not linked |
| OAuthService.GitHubAdmission | services/auth-service/internal/service/oauth_service.go:52-81 | exchange and profile errors are returned with the table unchanged; otherwise the result is `Admitted` on the GitHub id written in decimal, so the user returned carries that id, and a user created has the profile's e-mail, login and avatar, no password and the new id |
| OAuthService.GoogleAdmission | services/auth-service/internal/service/oauth_service.go:183-230 | exchange and profile errors are returned with the table unchanged; otherwise the result is `Admitted` on the Google id, so the user returned carries that id, and a user created has the profile's e-mail and picture, the e-mail's local part as username, no password and the new id |
| OAuthService.OAuthService.IssueTokens | services/auth-service/internal/service/oauth_service.go:252-270 | without an auth service it fails and stores nothing; otherwise it issues as the auth service does |
| OAuthService.OAuthService.HandleGitHubCallback | services/auth-service/internal/service/oauth_service.go:52-81 | the table becomes the admission's table, and the reply is the admission's error or the tokens issued for its user |
| OAuthService.OAuthService.HandleGoogleCallback | services/auth-service/internal/service/oauth_service.go:183-230 | the same for Google |
| Query.EncodedPairs | services/auth-service/internal/handlers/auth_handler.go:221-228 | one escaped `key=value` piece per parameter |
| Query.EncodedPairsFree | services/auth-service/internal/handlers/auth_handler.go:227 | no encoded piece holds "&" |
| Query.EncodedPairAt | services/auth-service/internal/handlers/auth_handler.go:227 | the i-th piece is the i-th key and value, escaped, around "=" |
| Query.ParseEncodedPair | services/auth-service/internal/handlers/auth_handler.go:227 | parsing one encoded piece gives back its key and value |
| Query.ParseEncodedPieces | services/auth-service/internal/handlers/auth_handler.go:227 | parsing the encoded pieces gives back the parameters |
| Query.QueryRoundTrip | services/auth-service/internal/handlers/auth_handler.go:221-228 | decoding an encoded non-empty query gives back its parameters |
| RateLimiter.RateKey | services/auth-service/internal/middleware/rate_limiter.go:27 | the counter key is "ratelimit:", the path, ":" and the client identifier |
| RateLimiter.Step | services/auth-service/internal/middleware/rate_limiter.go:20-50 | 429 comes exactly when the read succeeded and the live count reached the maximum; a read fault lets the request through untouched; a failed pipeline lets it through without headers, with none, the INCR alone, or both commands applied, since go-redis pipelines are not transactions; a counted request raises the count by one and reports the remaining allowance; only the client's key changes |
| RateLimiter.FirstHitOpensWindow | services/auth-service/internal/middleware/rate_limiter.go:38-42 | the first request after a window starts a counter at 1 that expires after the window |
| RateLimiter.RunWithinWindow | services/auth-service/internal/middleware/rate_limiter.go:20-50 | within one window, the requests already counted plus those let through afterwards never exceed the maximum |
| RateLimiter.AtMostMaxPerWindow | services/auth-service/internal/middleware/rate_limiter.go:20-50 | within one window, with no faults, at most the maximum number of requests are let through |
| RateLimiter.RateLimiter.Limit | services/auth-service/internal/middleware/rate_limiter.go:20-50 | the decision and the new Redis state are `Step` for the user's id, or else the client IP, and the headers are `Headers` of the decision |
| RateLimiter.Headers | services/auth-service/internal/middleware/rate_limiter.go:47-48 | the two headers are set exactly for a counted request, and they read back as the limit and the remaining allowance |
| RateLimiter.StuckCounterRefusesForever | services/auth-service/internal/middleware/rate_limiter.go:30-36 | a counter without expiry that has reached the maximum refuses the key at every later time |
| RateLimiter.FailedFirstHitHasNoExpiry | services/auth-service/internal/middleware/rate_limiter.go:38-45 | a first hit whose pipeline fails after the INCR leaves count 1 with no expiry |
| ErrorHandler.CustomErrorHandler | services/auth-service/cmd/main.go:85-100 | Fiber errors keep their status and message; any other error is 500 "Internal Server Error"; the body's code equals the status |
| ErrorHandler.OtherErrorsLookAlike | services/auth-service/cmd/main.go:86-87 | internal errors do not leak their text |
| AuthHandler.RegisterReply | services/auth-service/internal/handlers/auth_handler.go:29-44 | a bad body is 400 "invalid payload"; a service error is 400 with its text; success is 201 with the tokens |
| AuthHandler.LoginReply | services/auth-service/internal/handlers/auth_handler.go:46-65 | a bad body is 400; invalid credentials are 401; other errors are 400; success is 200 with the tokens |
| AuthHandler.RefreshReply | services/auth-service/internal/handlers/auth_handler.go:67-86 | a bad body is 400; an invalid token is 401; other errors are 400; success is 200 with the tokens |
| AuthHandler.ExpiredRefreshIsBadRequest | services/auth-service/internal/handlers/auth_handler.go:73-80 | an expired refresh token is answered 400, not 401; the service reports it only for a lifetime of zero days or less, see UnboundedRecordReportsExpired |
| AuthHandler.LogoutReply | services/auth-service/internal/handlers/auth_handler.go:88-99 | a bad body is 400; a Redis fault is 400 with its text; otherwise 200 |
| AuthHandler.MeReply | services/auth-service/internal/handlers/auth_handler.go:101-118 | no user id is 401; an id that is not a UUID is 400; otherwise the user lookup's answer |
| AuthHandler.MeStatuses | services/auth-service/internal/handlers/auth_handler.go:101-118 | `/me` answers only 200, 400, 401 or 404, and 200 only with the user found |
| AuthHandler.StateOrNew | services/auth-service/internal/handlers/auth_handler.go:122-125 | a non-empty state is kept; an empty one is replaced by a new UUID |
| AuthHandler.OAuthStartReply | services/auth-service/internal/handlers/auth_handler.go:120-143 | an unknown provider is 400; otherwise 200 with the provider's URL and the state used |
| AuthHandler.OAuthStartStateInUrl | services/auth-service/internal/handlers/auth_handler.go:120-143 | the state returned is the one carried in the URL's query |
| AuthHandler.OAuthCallbackReply | services/auth-service/internal/handlers/auth_handler.go:145-171 | a missing code is 400 before the provider is checked; an unknown provider is 400; a service error is 400; otherwise 200 with the tokens |
| AuthHandler.EmptyCodeSkipsService | services/auth-service/internal/handlers/auth_handler.go:145-209 | with no code, the reply does not depend on the service |
| AuthHandler.AuthUrlRedirect | services/auth-service/internal/handlers/auth_handler.go:173-196 | a 307 redirect to the provider's authorisation URL |
| AuthHandler.ProviderCallbackReply | services/auth-service/internal/handlers/auth_handler.go:179-209 | a missing code is 400; a service error is 400; otherwise a 307 redirect to the front end with the tokens |
| AuthHandler.RedirectCarriesTokens | services/auth-service/internal/handlers/auth_handler.go:221-228 | the redirect is the front end without trailing slashes, "/dashboard?", and a query that parses back to both tokens and the decimal expiry |
| ApiClient.ApiBaseUrl | apps/web/src/lib/api-client.ts:3-4 | the API URL from the environment when it is set and non-empty, else the local default |
| ApiClient.SavedKeys | apps/web/src/lib/api-client.ts:82-87 | saving writes both tokens and the expiry stamp and leaves every other key alone |
| ApiClient.ClearedKeys | apps/web/src/lib/api-client.ts:89-95 | clearing removes the session keys and leaves every other key alone |
| ApiClient.FreshAfterSave | apps/web/src/lib/api-client.ts:150-155 | after a save, the client counts as signed in exactly until a minute before the expiry |
| ApiClient.ClearedNotFresh | apps/web/src/lib/api-client.ts:150-155 | after clearing, the client is not signed in |
| ApiClient.ApiClient.SetTokens | apps/web/src/lib/api-client.ts:82-87 | storage becomes the saved map |
| ApiClient.ApiClient.ClearTokens | apps/web/src/lib/api-client.ts:89-95 | storage becomes the cleared map |
| ApiClient.ApiClient.Stored | apps/web/src/lib/api-client.ts:72-80 | a stored key's value, and null without a window or for a key never stored |
| ApiClient.ApiClient.IsAuthenticated | apps/web/src/lib/api-client.ts:150-155 | the answer is whether the stored token is fresh; with no storage the call throws |
| ApiClient.ApiClient.AttachToken | apps/web/src/lib/api-client.ts:29-39 | a request gets "Bearer " and the stored token exactly when a non-empty token is stored |
| ApiClient.ApiClient.RefreshToken | apps/web/src/lib/api-client.ts:97-115 | no stored refresh token fails and sends nothing; a refused refresh clears the session; a success saves the new pair |
| ApiClient.ApiClient.OnResponseError | apps/web/src/lib/api-client.ts:41-69 | only a first 401 triggers a refresh and a resend; a failed refresh clears the session and rejects with "No refresh token available" or the refresh call's own error, which is remembered and rejects later 401s; other errors pass through |
| AuthClient.HandleError | apps/web/src/lib/services/auth.service.ts:170-179 | the message is the server's error text, else the thrown message, else a fixed fallback; it is never empty |
| AuthClient.ServerMessageShown | apps/web/src/lib/services/auth.service.ts:170-179 | the client shows the message the server's error handler wrote |
| AuthClient.ApiClientBase | apps/web/src/lib/services/auth.service.ts:184-186 | the API base without trailing slashes |
| AuthClient.AuthUrl | apps/web/src/lib/services/auth.service.ts:88-118 | the start URL begins with the API base and ends with the state; the state is the caller's when non-empty, else the fresh UUID |
| AuthClient.AuthUrlCarriesState | apps/web/src/lib/services/auth.service.ts:88-92 | the authorisation URL ends in the query with the state, and a state passed in is kept |
| AuthClient.SignedInAfterFlow | apps/web/src/lib/services/auth.service.ts:37-57 | after a successful sign-in, the client counts as authenticated until a minute before the expiry |
| AuthClient.AuthClient.Authenticate | apps/web/src/lib/services/auth.service.ts:15-57 | a successful reply saves the tokens and the user; anything else leaves storage untouched |
| AuthClient.AuthClient.Register | apps/web/src/lib/services/auth.service.ts:15-35 | success exactly for a successful reply with data; then the result is the reply's data, the tokens and their expiry are saved and the user is stored; a failure leaves storage unchanged and carries the handled message |
| AuthClient.AuthClient.Login | apps/web/src/lib/services/auth.service.ts:37-57 | as for register: success exactly for a successful reply with data; then the result is the reply's data, the tokens and their expiry are saved and the user is stored; a failure leaves storage unchanged and carries the handled message |
| AuthClient.AuthClient.HandleGitHubCallback | apps/web/src/lib/services/auth.service.ts:94-112 | as for register, for the GitHub callback: success exactly for a successful reply with data; then the result is the reply's data, the tokens and their expiry are saved and the user is stored; a failure leaves storage unchanged and carries the handled message |
| AuthClient.AuthClient.HandleGoogleCallback | apps/web/src/lib/services/auth.service.ts:120-138 | as for register, for the Google callback: success exactly for a successful reply with data; then the result is the reply's data, the tokens and their expiry are saved and the user is stored; a failure leaves storage unchanged and carries the handled message |
| AuthClient.AuthClient.StoredUser | apps/web/src/lib/services/auth.service.ts:144-153 | null without a window or a stored user; a user returned is what the stored text parses to; after a sign-in it is the signed-in user |
| AuthClient.AuthClient.GetCurrentUser | apps/web/src/lib/services/auth.service.ts:75-86 | success stores and returns the user; failure leaves storage unchanged |
| AuthClient.AuthClient.Logout | apps/web/src/lib/services/auth.service.ts:59-73 | the stored refresh token, if any, is sent, and the session is cleared whatever the server answers |
| AuthStore.ReloadKeepsSession | apps/web/src/lib/stores/auth.store.ts:200-203 | a reload keeps the persisted session, and comes back neither loading nor failed |
| AuthStore.AuthStore.Register | apps/web/src/lib/stores/auth.store.ts:45-62 | success signs the user in; failure records the message and stops loading |
| AuthStore.AuthStore.Login | apps/web/src/lib/stores/auth.store.ts:64-81 | the same for login |
| AuthStore.AuthStore.Logout | apps/web/src/lib/stores/auth.store.ts:83-98 | the store is reset and the session cleared, whatever the server answers |
| AuthStore.AuthStore.FetchUser | apps/web/src/lib/stores/auth.store.ts:100-122 | with no fresh token the store resets without a request; otherwise the fetched user signs in, or a failure resets the store with the error message |
| AuthStore.AuthStore.StartOAuth | apps/web/src/lib/stores/auth.store.ts:124-154 | the state and the provider are saved for the callback, and the browser goes to the provider's URL |
| AuthStore.AuthStore.HandleOAuthCallback | apps/web/src/lib/stores/auth.store.ts:156-189 | the call is made exactly when the state and the provider match the saved ones; the saved pair is always removed; success signs in |
| AuthStore.AuthStore.Exchange | apps/web/src/lib/stores/auth.store.ts:166-169 | the provider's callback call: success exactly for a successful reply with data, which is returned while the tokens and user are saved; a failure carries a non-empty message and leaves storage unchanged |
| AuthStore.AuthStore.MarkAuthenticated | apps/web/src/lib/stores/auth.store.ts:191-193 | only the signed-in flag is set |
| AuthStore.AuthStore.ClearError | apps/web/src/lib/stores/auth.store.ts:195 | only the error is cleared |
| AuthStore.AuthStore.Reset | apps/web/src/lib/stores/auth.store.ts:196 | back to the initial state |
| RegisterForm.FirstAt | apps/web/src/components/auth/register-form.tsx:35-39 | the index of the first "@", or none when there is no "@" |
| RegisterForm.EmailMatchesPattern | apps/web/src/components/auth/register-form.tsx:35-39 | the executable check agrees with the e-mail pattern `^[^\s@]+@[^\s@]+\.[^\s@]+$` in both directions |
| RegisterForm.EmailError | apps/web/src/components/auth/register-form.tsx:35-39 | an e-mail error exactly when the pattern fails |
| RegisterForm.UsernameError | apps/web/src/components/auth/register-form.tsx:41-49 | no error exactly for 3 to 50 letters, digits, "_" or "-" |
| RegisterForm.PasswordError | apps/web/src/components/auth/register-form.tsx:51-57 | no error exactly for a length from 8 to 100 |
| RegisterForm.ConfirmError | apps/web/src/components/auth/register-form.tsx:59-63 | no error exactly when the confirmation is non-empty and equals the password |
| RegisterForm.HasCharIn | apps/web/src/components/auth/register-form.tsx:69-76 | true exactly when some character lies in the range |
| RegisterForm.AllUsernameChars | apps/web/src/components/auth/register-form.tsx:41-49 | true exactly when every character is allowed in a username |
| RegisterForm.FormErrorsPerField | apps/web/src/components/auth/register-form.tsx:32-67 | a field has an entry exactly when it fails its rule, and the entry is that rule's non-empty message |
| RegisterForm.NoErrorsIffValid | apps/web/src/components/auth/register-form.tsx:65-66 | the form has no errors exactly when every field is valid |
| RegisterForm.PasswordStrength | apps/web/src/components/auth/register-form.tsx:69-76 | each indicator is set exactly when the password has that kind of character, or enough length |
| RegisterForm.RegisterForm.ValidateForm | apps/web/src/components/auth/register-form.tsx:32-67 | the errors become the form's errors, and the answer is whether the form is valid |
| RegisterForm.RegisterForm.HandleInputChange | apps/web/src/components/auth/register-form.tsx:96-109 | only the changed field is updated, its error is dropped, and the strength is recomputed for the password |
| RegisterForm.RegisterForm.HandleSubmit | apps/web/src/components/auth/register-form.tsx:78-94 | the auth store's error is cleared first; `register` is called exactly when the form is valid, with the e-mail, the username and the password; the page moves to /dashboard exactly when registration succeeds, with the user signed in and the session saved; a failure is caught, the page stays and the store records the error with loading stopped; an invalid form leaves storage untouched |
| EditorStore.Without | apps/web/src/store/editor-store.ts:25 | the filtered list holds exactly the other files |
| EditorStore.WithoutConcat | apps/web/src/store/editor-store.ts:25 | filtering keeps the order |
| EditorStore.WithoutNoDuplicates | apps/web/src/store/editor-store.ts:25 | filtering a list without duplicates keeps it without duplicates |
| EditorStore.FirstOrNull | apps/web/src/store/editor-store.ts:26 | `list[0] || null` is the first entry when it exists and is non-empty, and null exactly otherwise |
| EditorStore.ClosedFileStaysActive | apps/web/src/store/editor-store.ts:26 | as written, closing the active first tab keeps it active although it is closed |
| EditorStore.ClosedActive | apps/web/src/store/editor-store.ts:23-27 | after closing, the closed file is never active, another active file is kept, and a replacement is a file still open |
| EditorStore.EditorStore.SetActiveFile | apps/web/src/store/editor-store.ts:17 | only the active file changes |
| EditorStore.EditorStore.OpenFile | apps/web/src/store/editor-store.ts:18-22 | the file is appended unless already open, it becomes active, and the list stays free of duplicates |
| EditorStore.EditorStore.CloseFile | apps/web/src/store/editor-store.ts:23-27 | the corrected close of the line-26 finding (see "## Findings"): the file leaves the list and is no longer active, the new active file is the first one still open, and an open active file stays open; as written, line 26 can keep the closed file active |
| EditorStore.EditorStore.UpdateFileContent | apps/web/src/store/editor-store.ts:28-31 | only that file's content changes |
| FileTree.Indent | apps/web/src/components/editor/file-tree.tsx:85 | the padding is 8 pixels plus a whole number of 12-pixel steps |
| FileTree.RowsWellFormed | apps/web/src/components/editor/file-tree.tsx:69-102 | every row is at least at its level, is indented for its own level, and is highlighted exactly when it is the active file |
| FileTree.NodeRowsWellFormed | apps/web/src/components/editor/file-tree.tsx:69-102 | the same for the rows of one node |
| FileTree.ChildrenIndentedFurther | apps/web/src/components/editor/file-tree.tsx:85-99 | under an expanded folder, every row below the folder's own is indented at least 12 pixels further than the folder |
| FileTree.CollapsedTreeShowsTopLevel | apps/web/src/components/editor/file-tree.tsx:99-102 | with nothing expanded, exactly the top-level nodes are shown, at level 0, in order |
| FileTree.HiddenChildren | apps/web/src/components/editor/file-tree.tsx:99-102 | a file or a collapsed folder is one row, and its children are not drawn |
| FileTree.Toggled | apps/web/src/components/editor/file-tree.tsx:22-31 | the folder's membership flips and no other folder's changes |
| FileTree.ToggleTwice | apps/web/src/components/editor/file-tree.tsx:22-31 | toggling twice restores the expanded set |
| FileTree.FileTree.ToggleFolder | apps/web/src/components/editor/file-tree.tsx:22-31 | the expanded set becomes the toggled set |
| FileTree.FileTree.OnClick | apps/web/src/components/editor/file-tree.tsx:75-81 | a folder toggles and selects nothing; a file is selected and nothing toggles; the choice is made by the click action of the node |
| WebSocket.WsUrl | apps/web/src/lib/websocket.ts:3 | the socket URL from the environment when it is set and non-empty, else the local default |
| WebSocket.WebSocketClient.Connect | apps/web/src/lib/websocket.ts:8-15 | an existing socket is kept; otherwise a new connected socket carries the URL, the token and the session |
| WebSocket.WebSocketClient.Disconnect | apps/web/src/lib/websocket.ts:17-20 | the old socket is disconnected and the wrapper holds none |
| WebSocket.WebSocketClient.Emit | apps/web/src/lib/websocket.ts:22-24 | the event is appended to the current socket's emissions, and with no socket nothing happens |
| WebSocket.WebSocketClient.On | apps/web/src/lib/websocket.ts:26-29 | the listener is added to the current socket, and the unsubscribe names it |
| WebSocket.WebSocketClient.Off | apps/web/src/lib/websocket.ts:28 | one registration of the listener is removed from the socket current at call time |
| Collaboration.WithoutUser | apps/web/src/hooks/useCollaboration.ts:17 | exactly the users with another id remain |
| Collaboration.WithoutUserConcat | apps/web/src/hooks/useCollaboration.ts:17 | the remaining users keep their order |
| Collaboration.WithoutUserKeepsAll | apps/web/src/hooks/useCollaboration.ts:17 | filtering out an id nobody has changes nothing |
| Collaboration.JoinThenLeave | apps/web/src/hooks/useCollaboration.ts:12-18 | a new user who joins and then leaves restores the list |
| Collaboration.Collaboration.OnUserJoined | apps/web/src/hooks/useCollaboration.ts:12-14 | the user is appended, and the cursors are unchanged |
| Collaboration.Collaboration.OnUserLeft | apps/web/src/hooks/useCollaboration.ts:16-18 | no user with that id remains, the others stay in order, and the cursors are unchanged |
| Collaboration.Collaboration.OnCursorUpdate | apps/web/src/hooks/useCollaboration.ts:20-26 | only that user's cursor is set |
| Collaboration.Collaboration.Subscribe | apps/web/src/hooks/useCollaboration.ts:11-26 | the three handlers are added to the current socket |
| Collaboration.Collaboration.Cleanup | apps/web/src/hooks/useCollaboration.ts:28-32 | the three handlers are removed from the current socket |
| Collaboration.Collaboration.SubscribeThenCleanup | apps/web/src/hooks/useCollaboration.ts:11-32 | one run of the effect followed by its cleanup on the same socket leaves exactly the listeners it had |
| UserNav.FirstLetter | apps/web/src/components/dashboard/user-nav.tsx:41 | a word's first character, or nothing for an empty word |
| UserNav.FirstLettersOfWords | apps/web/src/components/dashboard/user-nav.tsx:39-44 | the letters picked are the first letters of the non-empty words, in order |
| UserNav.NonEmpty | apps/web/src/components/dashboard/user-nav.tsx:40-42 | only non-empty words are kept |
| UserNav.InitialsOfWords | apps/web/src/components/dashboard/user-nav.tsx:39-44 | the initials are the upper-cased first letters of the first two non-empty words |
| UserNav.OneWordInitial | apps/web/src/components/dashboard/user-nav.tsx:39-44 | a one-word name gives one upper-cased letter |
| UserNav.Render | apps/web/src/components/dashboard/user-nav.tsx:34-37 | a spinner exactly while loading; nothing exactly when no user is signed in; otherwise the menu with the user's name, e-mail and initials |
| UserNav.HandleLogout | apps/web/src/components/dashboard/user-nav.tsx:24-32 | the store's logout never rejects, so the browser always goes to /login, with the store signed out and the session keys removed |
| UserPresence.FaceOf | apps/web/src/components/collaboration/user-presence.tsx:28-32 | an image exactly for a non-empty avatar; otherwise up to two upper-cased letters of the name |
| UserPresence.Render | apps/web/src/components/collaboration/user-presence.tsx:21-39 | the first three users are shown with their faces; a badge appears exactly when there are more; shown plus badge count equals the number of users |
| Terminal.Echo | apps/web/src/components/editor/terminal.tsx:19 | a command line holding the command after "$ ", then a placeholder that is not a command line |
| Terminal.Terminal.Submit | apps/web/src/components/editor/terminal.tsx:16-21 | blank input changes nothing; otherwise the echo is appended and the input cleared; output only grows |
| Terminal.Terminal.SetInput | apps/web/src/components/editor/terminal.tsx:51 | only the input changes |
| AiChat.CountRole | apps/web/src/components/ai/ai-chat.tsx:23-45 | a role's count is at most the number of messages |
| AiChat.CountRoleAppend | apps/web/src/components/ai/ai-chat.tsx:26-44 | appending a message adds one to its role's count only |
| AiChat.RolesPartition | apps/web/src/components/ai/ai-chat.tsx:23-45 | the user and assistant counts add up to the number of messages |
| AiChat.ConversationLength | apps/web/src/components/ai/ai-chat.tsx:23-45 | with every user message answered or pending, the length plus the pending replies is twice the user messages plus one |
| AiChat.AiChat.constructor | apps/web/src/components/ai/ai-chat.tsx:13-19 | the chat opens with the assistant's greeting |
| AiChat.AiChat.SetInput | apps/web/src/components/ai/ai-chat.tsx:91 | only the input changes |
| AiChat.AiChat.Send | apps/web/src/components/ai/ai-chat.tsx:23-35 | blank input changes nothing; otherwise the user's message is appended, the input cleared, loading started, and one reply is pending; every user message has a reply sent or pending |
| AiChat.AiChat.Reply | apps/web/src/components/ai/ai-chat.tsx:36-44 | the canned reply is appended and loading stops; the reply balance is kept |

## Left out

- Cryptography is not modelled inside the proofs. bcrypt, JWT signing and parsing, `uuid.Parse` and `url.QueryEscape` are parameters that satisfy stated laws, for example "a hash verifies against its password".
- The HTTP layer is not modelled: routing, the CORS, logging and recovery middleware, and the Fiber context.
- The real network calls to GitHub and Google are not modelled. Their answers are parameters.
- Clocks, random bytes and new UUIDs are inputs. Each call takes one time reading, in seconds on the server and milliseconds in the browser.
- Redis expiry is a deadline stored with each key. An expired key stays in the model's map but no lookup returns it.
- UserRepository Update and Delete are not modelled. No operation of this core calls them.
- TokenRepository.TokenStore.DeleteUserTokens: an error from the key scan itself (`iter.Err`) is not modelled.
- RateLimiter.Step: a Redis value that is not an integer is treated as a read fault.
- RateLimiter.Step: each request is handled on its own, so requests racing between the read and the increment are not modelled.
- AuthHandler.StateOrNew: Go's `c.Query(key, default)` gives the default for an empty value too. The model treats it like the explicit check, which is the same behaviour.
- Models: the `validate` tags on the request types are not enforced by the handlers, so no handler models them.
- Config.Load: `godotenv.Load` merging a `.env` file into the environment is not modelled. The environment map is taken as already merged.
- AuthService.StoredRecordNeverExpiredWhileLive: the source reads the clock twice, once for the stamp and again when Redis runs the SET a moment later. The model reads it once, so the short window between the two readings, where "token expired" can still arise, is not modelled.
- AuthService.RefreshLifetime: Go computes the refresh lifetime (`time.Hour * 24 * RefreshExpiryDays`) and the access-token lifetime (`time.Minute * JWTExpiryMinutes`) as int64 nanoseconds, which wrap around beyond 106751 days or 153722867 minutes; the model's lifetimes are unbounded integers. A wrapped lifetime can be negative, which stores the key without a time to live and stamps it in the past. So AuthService.IssuedTokenValidates, AuthService.IssuedTokenLapses, AuthService.StoredRecordNeverExpiredWhileLive and AuthService.UnboundedRecordReportsExpired require DurationsFit, and say nothing about larger settings.
- UserNav.FirstLetter: `n[0]` takes the first UTF-16 unit; the model takes the first character. They differ only for a word starting outside the Basic Multilingual Plane.
- UserRepository.InsertError: when several unique constraints clash, the model reports them in the order e-mail, username, id. PostgreSQL's own order of constraint checks is not modelled.
- Text.ToUpper: upper-cases ASCII only. Other letters stay as they are.
- Text.Prefix: JavaScript `slice` counts UTF-16 units; the model counts characters.
- OAuthService: the service's own handle on the token repository only frames the state; it is never used apart from the auth service.
- ApiClient.ApiClient.OnResponseError: the shared `refreshPromise` is modelled sequentially. A failed refresh becomes a remembered failure that rejects later 401s. Concurrent requests awaiting the same promise are not modelled.
- ApiClient.ApiClient.OnResponseError: the resent request's own outcome is not modelled.
- Browser storage that throws (quota, disabled) is not modelled. Session storage is always present.
- The web services and stores take the server's reply as a parameter instead of sending a request. The JSON user codec is an abstract function with a round-trip law.
- JavaScript numbers are unbounded integers.
- AuthStore.AuthStore.StartOAuth: a throw while building the URL, the catch paths of `githubLogin` and `googleLogin`, is not modelled.
- FileTree: a node without `children` is treated as one with none.
- WebSocket: the socket.io client is a multiset of listeners and a log of emitted events. Delivering incoming events to the listeners is not modelled.
- Collaboration: when the session id changes, the effect runs again but the user list is not reset. Cursors of users who left are kept. Both are behaviours of the hook that the contracts state but no property builds on.
- AiChat: the Send button is disabled while loading, but the Enter key still calls `handleSend`; the model follows the handler. Each reply timer's expiry is its own step (`Reply`).
- Markup, styling and toasts are not modelled. Neither are the pages, the Monaco editor, the AI hooks and the Yjs provider, which hold no state of this core.
- The collaborative-editing engine is not part of this repository and is not part of this model.

## Findings

| source | as written | input that shows it | evidently intended | confidence | as-written member | corrected member |
|---|---|---|---|---|---|---|
| apps/web/src/store/editor-store.ts:26 | when the active file is closed, the new active file is `state.openFiles[0]` taken from the list before the removal | openFiles ["a", "b"], active "a", closeFile("a"): "a" stays active although only "b" is open | the first file still open after the removal, or none | not executed | EditorStore.ClosedFileStaysActive | EditorStore.ClosedActive, EditorStore.EditorStore.CloseFile |
