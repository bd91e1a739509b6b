# steam-observer backend: the Google login slice, in Dafny

This project models the authentication core of the steam-observer Go backend and proves
properties about the model:

- the one-time OAuth `state` store, a CSRF guard in the sense of section 10.12 of RFC 6749;
- the user entity, the Google profile conversion and the users table;
- the login service: the authorization URL of section 4.1.1 of RFC 6749, and the
  exchange, find-or-create and issue sequence;
- the session-token provider, with the claims of section 4.1 of RFC 7519;
- the login HTTP handlers;
- the three HTTP middlewares: Bearer authentication (section 2.1 of RFC 6750), CORS and request logging;
- the configuration loader;
- the logger's field maps and its plain line format.

Each Go file of the core is one Dafny module. Code that updates things in place keeps that
form: the state store, the user, the repository, the response writer and the logger are
classes, and the loops of `cleanup`, `Load`, `clone`, `WithFields`, `formatPlain` and the
CORS allow-list scan are `while` loops with invariants. Pure code stays pure: handlers, the
authentication decision, claims, configuration lookups and user rendering are functions.

Helper modules model the library behaviour the core depends on:

- `Wrappers` holds `Option` and `Result`.
- `Errors` holds Go error values and `errors.Is`.
- `Text` holds `strings.Split`, `TrimSpace` and `TrimPrefix`, `fmt`'s `%d` scan and print, `%-5s`
  padding, and int64 wrap-around.
- `UrlQuery` holds `url.QueryEscape`, `Values.Encode` and `URL.String`.
- `JwtLibrary` holds the order of checks in golang-jwt's `ParseWithClaims`.
- `Http` holds query lookup, responses, and `http.Redirect` with its escaping of the Location
  and its HTML answer to GET and HEAD requests.

Time is an integer count of nanoseconds, and every clock reading is a parameter. One login has
one reading: it stands both for the database's `NOW()` and for the token provider's `time.Now()`.
Go's `int` is taken to be 64 bits wide. Ids,
database faults (`fault`, `findFault` and `createFault`: an `Option<Error>` standing for a
failing query) and collaborators are parameters too: the OAuth client, token signing, the service seen by the
handlers, and the token parser seen by the middleware.

Behaviour of the code as written that the model keeps and proves:

- `getEnvAsInt` uses `fmt.Sscanf("%d")`, which accepts a numeric prefix. So "42abc" yields 42
  rather than the default (`Config.GetEnvAsIntIgnoresSuffix`).
- The TTL is `time.Duration` arithmetic on int64. A `JWT_TTL_SECONDS` beyond about 9.2e9 wraps
  (`Config.JwtTTLWrapsBeyondRange`), and a TTL of zero or less makes every token refused
  (`JwtProvider.NonPositiveTTLNeverAccepted`).
- `BeginGoogleLogin` puts no `state` in the URL and ignores its redirect argument.
  `CompleteGoogleLogin` uses the constant Google id "stub-google-id" and the email
  "stub@example.com", whatever the token exchange returned.
- The new user is built with an empty id and zero times, not through `NewUser`. The first
  login therefore inserts the row with id "", and a second first-login, after that row's Google
  id changed, fails as a duplicate key.
- `service.go` declares `CompleteGoogleLogin(ctx, code)`, while the handler calls it with
  `(code, state)` and expects `(token, redirectAfter, error)`. The handler is modelled against
  the signature it calls, with the service as a parameter.
- The callback always redirects to `http://localhost:3000/?token=...`, whatever the service
  returned as the redirect target.
- `User.String` prints `<nil>` both for a missing email and for the email "<nil>"
  (`DomainUser.RenderNilAmbiguous`).
- With a trailing comma in `CORS_ORIGINS`, the allow-list contains "", so a request without an
  `Origin` header gets the credentialed CORS headers
  (`CorsMiddleware.TrailingCommaAllowsMissingOrigin`).

## Model

| member | source | states |
|---|---|---|
| StateStore.InMemoryStateStore.constructor | internal/modules/auth/app/state.go:54-64 | a new store holds no states |
| StateStore.InMemoryStateStore.Save | internal/modules/auth/app/state.go:67-79 | the entry for `state` becomes (redirectURL, now+ttl), overwriting any earlier one; no other key changes |
| StateStore.InMemoryStateStore.Get | internal/modules/auth/app/state.go:82-106 | the result is the lookup of `state` at `now` in the old map (not found, expired with strict `After`, or the URL), and the key is gone afterwards in every case |
| StateStore.InMemoryStateStore.SweepExpired | internal/modules/auth/app/state.go:120-128 | after one sweep, the map is exactly the old map restricted to entries not yet expired |
| StateStore.LookupCases | internal/modules/auth/app/state.go:88-105 | success iff the key exists and now <= expiresAt, giving the saved URL; "state not found" iff absent; "state expired" iff present and now > expiresAt |
| StateStore.SecondGetNotFound | internal/modules/auth/app/state.go:97-105 | once a Get has removed a state, any later Get of it reports "state not found" |
| StateStore.SaveThenGet | internal/modules/auth/app/state.go:73-105 | a saved state is returned up to and including its expiry instant, and reported expired after it |
| StateStore.OtherStatesUntouched | internal/modules/auth/app/state.go:73-103 | Save and Get of one state do not change the lookup of any other state |
| StateStore.SweepKeepsExactlyLive | internal/modules/auth/app/state.go:120-128 | the sweep keeps a key iff now <= its expiresAt, with its entry unchanged |
| StateStore.SweepInvisibleToGet | internal/modules/auth/app/state.go:120-128 | a sweep at `now` never changes whether a later Get succeeds, or the URL it returns |
| StateStore.ReplayIsRejected | internal/modules/auth/app/state.go:67-106 | Save then two Gets: the first returns the URL, the replay is "state not found" |
| StateStore.ExpiredThenNotFound | internal/modules/auth/app/state.go:95-98 | a Get after expiry reports "state expired" and removes it, so the next Get reports "state not found" |
| StateStore.SweptStateNotFound | internal/modules/auth/app/state.go:120-128 | a state swept after expiry is afterwards "not found" rather than "expired" |
| DomainUser.User.New | internal/modules/auth/domain/user.go:35-49 | the user carries the given Google id and email, created == updated == now, and validates iff the Google id is non-empty |
| DomainUser.User.Validate | internal/modules/auth/domain/user.go:59-69 | no error iff the Google id is present and non-empty; otherwise "google ID is required" |
| DomainUser.ValidateIgnoresEmail | internal/modules/auth/domain/user.go:59-69 | two users with the same Google id validate alike, whatever their emails |
| DomainUser.NewUserValidates | internal/modules/auth/domain/user.go:35-69 | NewUser(g, e) validates iff g != "", and otherwise fails with the Google-id error |
| DomainUser.User.UpdateEmail | internal/modules/auth/domain/user.go:76-79 | the email becomes the new one and updatedAt becomes now; id, Google id, createdAt and validity are unchanged |
| DomainUser.User.String | internal/modules/auth/domain/user.go:83-90 | the text is "User{ID=<id>, Email=" followed by the email, or `<nil>`, and "}" |
| DomainUser.StringIgnoresGoogleID | internal/modules/auth/domain/user.go:83-90 | String depends only on id and email, never on the Google id |
| DomainUser.RenderDeterminesEmail | internal/modules/auth/domain/user.go:83-90 | for a fixed id, equal renderings have equal email texts |
| DomainUser.RenderNilAmbiguous | internal/modules/auth/domain/user.go:84-89 | a missing email and the email "<nil>" render identically |
| DomainGoogleUserInfo.ToUser | internal/modules/auth/domain/google_user_info.go:60-74 | Google id = sub; an empty email becomes nil and a non-empty one is copied, verified or not; the result validates iff sub != "" |
| DomainGoogleUserInfo.ShouldStoreEmail | internal/modules/auth/domain/google_user_info.go:86-88 | true iff the email is non-empty and verified |
| DomainGoogleUserInfo.UserEmailIgnoresProfile | internal/modules/auth/domain/google_user_info.go:60-88 | the converted email depends on the email alone; only ShouldStoreEmail looks at the verified flag |
| PostgresRepo.UserRepository.FindByGoogleID | internal/modules/auth/adapters/out/postgres/postgres.go:27-86 | a query failure is wrapped; no row with that google_id gives ErrNotFound; otherwise the user of a matching row, nullable columns as stored |
| PostgresRepo.UserRepository.FindByID | internal/modules/auth/adapters/out/postgres/postgres.go:89-120 | a query failure is wrapped; no row with that id gives ErrNotFound; otherwise that row as a user |
| PostgresRepo.UserRepository.Create | internal/modules/auth/adapters/out/postgres/postgres.go:123-168 | an invalid user or a failing insert leaves table and user unchanged; otherwise a row with the user's id, email, google_id and created = updated = now is added, and those times are written back into the user |
| PostgresRepo.UserRepository.Update | internal/modules/auth/adapters/out/postgres/postgres.go:171-216 | an invalid user, a failing query or a missing id (ErrNotFound) changes nothing; otherwise only that row's email, google_id and updated_at change, and created_at is kept |
| PostgresRepo.CreateThenFind | internal/modules/auth/adapters/out/postgres/postgres.go:89-168 | a created user is found again by id and by Google id with the stored values |
| PostgresRepo.UpdateThenFind | internal/modules/auth/adapters/out/postgres/postgres.go:89-216 | after Update, FindByID returns the new email, the same Google id and createdAt, and updatedAt = now |
| PostgresRepo.InvalidUserNotStored | internal/modules/auth/adapters/out/postgres/postgres.go:123-128 | a user without a Google id is refused and cannot be found afterwards |
| AuthService.AuthorizationParams | internal/modules/auth/app/service.go:44-49 | exactly access_type=offline, client_id, redirect_uri, response_type=code and scope="openid email profile", in the sorted key order that Values.Encode writes |
| AuthService.AuthServiceImpl.BeginGoogleLogin | internal/modules/auth/app/service.go:41-60 | never fails; returns https://accounts.google.com/o/oauth2/v2/auth with the encoded parameters as its query |
| AuthService.BeginGoogleLoginHasNoState | internal/modules/auth/app/service.go:41-60 | no query parameter of the authorization URL is "state" |
| AuthService.BeginGoogleLoginURL | internal/modules/auth/app/service.go:52-59 | the query is non-empty and the URL ends in "?" followed by it |
| AuthService.BeginGoogleLoginQuery | internal/modules/auth/app/service.go:44-59 | the query splits on '&' back into one field per parameter, each splitting on '=' into the escaped key and the escaped value |
| AuthService.AuthServiceImpl.CompleteGoogleLogin | internal/modules/auth/app/service.go:62-107 | an exchange error is returned with the table untouched; a lookup error other than not-found is returned wrapped; a found user gets the token generated at the login's clock reading for its id and email, and nothing is written; on not-found the user is created once (a create error is returned), and the token is generated at that reading for the new user's id and email |
| AuthService.FirstLoginCreatesSecondFinds | internal/modules/auth/app/service.go:62-107 | against an empty table, the first login inserts the single stub row and the second finds it, with no new row; both tokens are for id "" and the stub email, each generated at its own login's clock reading |
| AuthService.FirstLoginTokensFromProvider | internal/modules/auth/app/service.go:96-106 | with the JWT provider as the token generator, each login's token is the HS256 signature of the claims issued at that login's time for id "" and the stub email |
| JwtLibrary.ClaimsProblems | internal/modules/auth/adapters/out/jwt_provider/jwt_provider.go:69-72 | no problem iff exp, when present, is after now and nbf, when present, is not after now |
| JwtLibrary.ParseWithClaims | internal/modules/auth/adapters/out/jwt_provider/jwt_provider.go:62-72 | success iff the token decodes, the key function accepts its method, it is signed, its signature verifies under that key and its claims hold; a valid token is the only success |
| JwtProvider.NumericDate | internal/modules/auth/adapters/out/jwt_provider/jwt_provider.go:42-44 | the time cut to the whole second at or below it |
| JwtProvider.NewJWTProvider | internal/modules/auth/adapters/out/jwt_provider/jwt_provider.go:20-25 | the provider keeps the configured secret and TTL |
| JwtProvider.IssueClaims | internal/modules/auth/adapters/out/jwt_provider/jwt_provider.go:37-48 | user_id = sub = the user id, email as given (nil stays nil), issuer "steam-observer", iat = nbf = NumericDate(now) and exp = NumericDate(now + ttl): each the whole second at or below the exact time |
| JwtProvider.GenerateAccessToken | internal/modules/auth/adapters/out/jwt_provider/jwt_provider.go:35-58 | the result, token or signing error, is what signing the claims issued at `now` for the id and email with HS256 under the provider's secret gives |
| JwtProvider.KeyFunc | internal/modules/auth/adapters/out/jwt_provider/jwt_provider.go:62-68 | the secret iff the method is HMAC, else "unexpected signing method" |
| JwtProvider.ValidateToken | internal/modules/auth/adapters/out/jwt_provider/jwt_provider.go:61-81 | success iff the token is accepted, and then the claims' user id and email |
| JwtProvider.ParseAccessToken | internal/modules/auth/adapters/out/jwt_provider/jwt_provider.go:85-93 | exactly ValidateToken's id and email, or its error with "" and nil |
| JwtProvider.NonHMACRejected | internal/modules/auth/adapters/out/jwt_provider/jwt_provider.go:62-68 | a decodable token whose method is not HMAC is refused by the key function |
| JwtProvider.InvalidTokenBranchDead | internal/modules/auth/adapters/out/jwt_provider/jwt_provider.go:74-76 | the "invalid token" branch of ValidateToken is never taken |
| JwtProvider.IssuedTokenAccepted | internal/modules/auth/adapters/out/jwt_provider/jwt_provider.go:35-93 | a token that decodes to the issued claims with a verifying HS256 signature is accepted from its second of issue until before its expiry second, giving back the id and email it was issued for; GeneratedTokenParsesBack discharges that hypothesis for GenerateAccessToken's output |
| JwtProvider.GeneratedTokenParsesBack | internal/modules/auth/adapters/out/jwt_provider/jwt_provider.go:35-93 | round trip: with a library that decodes what the signer produces, a token GenerateAccessToken returned parses back within its lifetime to the id and email it was generated for |
| JwtProvider.IssuedTokenRefusedOutsideLifetime | internal/modules/auth/adapters/out/jwt_provider/jwt_provider.go:35-93 | outside that window the token is refused, and ParseAccessToken gives "" and nil |
| JwtProvider.NonPositiveTTLNeverAccepted | internal/modules/auth/adapters/out/jwt_provider/jwt_provider.go:42-44 | with a TTL of zero or less, no issued token is ever accepted |
| AuthHandlers.GoogleLogin | internal/modules/auth/adapters/in/http/handlers.go:23-37 | the `redirect` query value goes to the service; its URL gives http.Redirect's 302 to it, and its error gives 500 "cannot start google login" |
| AuthHandlers.GoogleCallback | internal/modules/auth/adapters/in/http/handlers.go:39-81 | 400 "missing code" first, then 400 "missing state"; the service is consulted only with both; its error gives 500; success gives http.Redirect's 302 to the frontend root with the token |
| AuthHandlers.CallbackGuardsIgnoreService | internal/modules/auth/adapters/in/http/handlers.go:40-54 | without code or state, the answer is 400 whatever the service would do |
| AuthHandlers.CallbackIgnoresRedirectAfter | internal/modules/auth/adapters/in/http/handlers.go:58-80 | the redirect target returned by the service has no effect |
| AuthHandlers.CallbackLocationCarriesToken | internal/modules/auth/adapters/in/http/handlers.go:72-80 | the Location starts with the frontend prefix, and what follows is the token with its non-ASCII bytes escaped, so an ASCII token comes back exactly |
| AuthMiddleware.UserIDFromContext | internal/shared/http/middleware/auth.go:19-23 | (id, true) iff a string is stored under the userID key, else ("", false) |
| AuthMiddleware.Auth | internal/shared/http/middleware/auth.go:26-56 | 401 "missing or invalid authorization header" without the case-sensitive "Bearer " prefix; the parser sees the rest; its error gives 401 "invalid token"; otherwise next once, with the user id in the context |
| AuthMiddleware.AuthThenUserID | internal/shared/http/middleware/auth.go:19-53 | a handler behind Auth reads back exactly the parsed user id |
| AuthMiddleware.AuthKeepsOtherContext | internal/shared/http/middleware/auth.go:52-53 | every other context entry reaches the next handler unchanged |
| AuthMiddleware.OnePrefixTrimmed | internal/shared/http/middleware/auth.go:38-47 | only one "Bearer " is removed: for "Bearer " + t the parser gets t, even when t starts with "Bearer " itself |
| AuthMiddleware.IssuedTokenPasses | internal/shared/http/middleware/auth.go:31-53 | a token that decodes to the provider's issued claims with a verifying signature, presented within its lifetime, passes carrying its user id |
| AuthMiddleware.GeneratedTokenPasses | internal/shared/http/middleware/auth.go:31-53 | a token GenerateAccessToken returned, under a library that decodes what the signer produces, passes within its lifetime carrying the id it was generated for |
| AuthMiddleware.ExpiredTokenRefused | internal/shared/http/middleware/auth.go:41-47 | the same token after its expiry second gets 401 "invalid token" |
| CorsMiddleware.CorsHeaders | internal/shared/http/middleware/cors.go:23-29 | exactly the five CORS headers: Allow-Origin the request's origin, credentials "true", methods "GET,POST,PUT,DELETE,OPTIONS,PATCH", headers "Content-Type,Authorization" and max age "86400" |
| CorsMiddleware.OriginAllowed | internal/shared/http/middleware/cors.go:15-21 | true iff the origin equals some allow-list entry exactly |
| CorsMiddleware.Handle | internal/shared/http/middleware/cors.go:9-40 | the CORS headers are set iff the origin is allowed, and none otherwise; OPTIONS always ends with its own 200; every other method reaches next, allowed or not |
| CorsMiddleware.TrailingCommaAllowsMissingOrigin | internal/shared/http/middleware/cors.go:11-29 | with a trailing comma in CORS_ORIGINS, a request without an Origin header gets the CORS headers, with an empty Allow-Origin |
| LoggingMiddleware.ResponseWriter.constructor | internal/shared/http/middleware/logging.go:17-19 | the captured status starts at 200 |
| LoggingMiddleware.ResponseWriter.WriteHeader | internal/shared/http/middleware/logging.go:21-24 | the code is recorded, the last write winning, and forwarded to the wrapped writer |
| LoggingMiddleware.CapturedStatus | internal/shared/http/middleware/logging.go:17-24 | 200 if the handler writes no status, else its last one |
| LoggingMiddleware.LevelFor | internal/shared/http/middleware/logging.go:50-57 | ERROR iff status >= 500, WARN iff 400 <= status < 500, INFO otherwise, with the matching message |
| LoggingMiddleware.RequestFields | internal/shared/http/middleware/logging.go:41-47 | exactly the fields method, path, status, duration and ip, holding the request method, the path, the status as a number, the duration text and the client address |
| LoggingMiddleware.Serve | internal/shared/http/middleware/logging.go:27-60 | every code the handler writes reaches the real writer in order; one entry is logged, after the handler, at the level of the captured status, with the logger's fields plus the request fields; the logger itself is unchanged |
| Config.GetEnv | internal/shared/config/config.go:64-69 | the variable when non-empty, else the default |
| Config.GetEnvEmptyIsUnset | internal/shared/config/config.go:64-69 | a variable set to "" behaves exactly like an unset one |
| Config.GetEnvAsInt | internal/shared/config/config.go:71-80 | the default when unset or empty or when `%d` finds no int64; otherwise the scanned number |
| Config.GetEnvAsIntReadsPrinted | internal/shared/config/config.go:71-80 | any int64 printed in decimal reads back as itself |
| Config.GetEnvAsIntIgnoresSuffix | internal/shared/config/config.go:71-80 | digits followed by a non-digit read as the digits' value |
| Config.JwtTTL | internal/shared/config/config.go:58 | 3600 s when unset; always an int64 duration |
| Config.JwtTTLWrapsBeyondRange | internal/shared/config/config.go:58 | for any int64 n of seconds, negative included, the TTL is n * 1e9 wrapped to int64 (two's complement), which is n seconds exactly when n * 1e9 fits in int64 |
| Config.CorsOriginsShape | internal/shared/config/config.go:37-44 | a non-empty value gives (number of commas + 1) entries, each a trimmed comma-free segment, empty segments kept |
| Config.CorsOriginsRoundTrip | internal/shared/config/config.go:37-44 | joining trimmed, comma-free origins with ',' and loading them gives the same list back |
| Config.TrimAll | internal/shared/config/config.go:41-43 | each element of the array is replaced by its trimmed text, in place |
| Config.Load | internal/shared/config/config.go:33-62 | CORS list as above (empty when unset), ":8080" and "http://localhost:3000" defaults, the Google, database and JWT settings, and the TTL from JWT_TTL_SECONDS |
| Text.ScanFormatRoundTrip | internal/shared/config/config.go:73-78 | `%d` reads back every int64 that `%d` prints |
| Text.TrimPrefix | internal/shared/http/middleware/auth.go:38 | with the prefix present, prefix + result is the input; otherwise the input is unchanged |
| Text.TrimSpace | internal/shared/config/config.go:42 | the result is an infix of the input from which only white space was cut at either end; it starts and ends with a non-space; an already trimmed string is unchanged |
| Text.ScanInt | internal/shared/config/config.go:74 | `%d` into an int: a value is always within int64 and needs a digit in the input |
| Text.Split | internal/shared/config/config.go:40 | one more segment than there are separators, none holding the separator |
| Text.SplitJoin | internal/shared/config/config.go:40 | splitting a join of separator-free segments gives the segments back |
| Text.JoinSplit | internal/shared/config/config.go:40 | joining the segments of a split gives the string back |
| Text.PadRight | internal/shared/logger/logger.go:291 | `%-5s`: the text followed by spaces up to the width, never cut |
| UrlQuery.QueryEscape | internal/modules/auth/app/service.go:44-56 | only unreserved characters, '+' and %XX escapes, never shorter than the input |
| UrlQuery.QueryEscapeUnreserved | internal/modules/auth/app/service.go:44-56 | a string of unreserved characters escapes to itself |
| UrlQuery.Encode | internal/modules/auth/app/service.go:56 | empty iff there are no pairs; otherwise it starts with the first key=value field |
| UrlQuery.AbsoluteURL | internal/modules/auth/app/service.go:52-59 | scheme://host/path, followed by "?" and the query exactly when the query is non-empty |
| UrlQuery.EncodeParsesBack | internal/modules/auth/app/service.go:44-56 | the encoded query splits on '&' into its fields, each splitting on '=' into escaped key and value |
| Http.QueryGet | internal/modules/auth/adapters/in/http/handlers.go:40-48 | the first value given for the key, or "" when there is none |
| Http.HexEscapeNonASCII | internal/modules/auth/adapters/in/http/handlers.go:79-80 | the result is ASCII, an ASCII URL is unchanged, and nothing gets shorter |
| Http.HexEscapeConcat | internal/modules/auth/adapters/in/http/handlers.go:79-80 | escaping distributes over concatenation |
| Http.Redirect | internal/modules/auth/adapters/in/http/handlers.go:79-80 | status 302; the Location is the escaped URL; a Content-Type of HTML iff the method is GET or HEAD; a body iff GET, linking to the HTML-escaped URL |
| Errors.IsNotFoundThroughWrapping | internal/modules/auth/app/service.go:79-93 | errors.Is finds ErrNotFound through any number of %w wrappings iff the wrapped error is it, and the wrapped message stays the tail of the printed one |
| Logger.DefaultConfig | internal/shared/logger/logger.go:73-80 | log directory "logs", console only, pretty format, colours on |
| Logger.CustomLogger.constructor | internal/shared/logger/logger.go:88-117 | stdout, plus the file filepath.Join(LogDir, "app.log") when writing to file, no fields, and the configured format and colours |
| Logger.LogFilePath | internal/shared/logger/logger.go:98-99 | filepath.Join(dir, "app.log") is "app.log" or ends in "/app.log" |
| Logger.CleanKeepsName | internal/shared/logger/logger.go:98-99 | cleaning a directory joined with a plain file name keeps that name as the last element |
| Logger.LogFilePathPlainDir | internal/shared/logger/logger.go:73-99 | a plain directory name such as the default "logs" gives "<dir>/app.log" |
| Logger.CustomLogger.Clone | internal/shared/logger/logger.go:167-183 | a fresh logger with the same writers, format and colours, and a field map equal to the receiver's |
| Logger.CustomLogger.WithField | internal/shared/logger/logger.go:151-155 | a fresh logger whose fields are the receiver's with key set to value; the receiver's fields are unchanged |
| Logger.CustomLogger.WithFields | internal/shared/logger/logger.go:158-164 | a fresh logger whose fields are the receiver's overridden by every given pair, with nothing else added; the receiver is unchanged |
| Logger.DerivedLoggersAreIndependent | internal/shared/logger/logger.go:151-183 | two loggers derived from one parent each hold only their own field, and the parent holds none |
| Logger.WritePairs | internal/shared/logger/logger.go:295-297 | one " k=v" per field, each field exactly once, in some iteration order |
| Logger.FormatPlain | internal/shared/logger/logger.go:288-301 | "time [LEVEL padded to 5] [file:line] msg", then the bar separator and the " k=v" pairs iff there are fields |
| Logger.IterationOrderLength | internal/shared/logger/logger.go:295 | an iteration order lists as many keys as the map has |
| Logger.BaseName | internal/shared/logger/logger.go:196 | filepath.Base: "." for "", "/" for only slashes, otherwise the slash-free last element |
| Logger.CustomLogger.Log | internal/shared/logger/logger.go:186-220 | an unknown caller becomes ("???", 0); the console gets the line in the logger's format, and the log file always the plain line |
| Logger.NopLogger.WithField | internal/shared/logger/logger.go:313 | the receiver itself |
| Logger.NopLogger.WithFields | internal/shared/logger/logger.go:314 | the receiver itself |

## Left out

- Randomness: `generateSecureState` (crypto/rand and base64) is not modelled; state strings are inputs.
- Concurrency: the cleanup goroutine, its five-minute ticker and the mutexes of the store and
  the logger. The sweep is one sequential method taking `now`.
- I/O: the Google OAuth HTTP client, the SQL text and pgx execution, godotenv, writes to stdout
  and files, and `os.MkdirAll`/`os.OpenFile` failures in the logger constructor.
- Logger.CustomLogger.Log: the pretty (ANSI) and JSON formats are named but not rendered;
  `runtime.Caller` and the two timestamp layouts are parameters.
- The `Info`, `Warn` and `Error` logger entry points are not modelled separately; `LevelName`
  gives their level texts.
- LoggingMiddleware.Serve: the handler is its sequence of status codes, and `Duration.String`
  is a given text; the logged entry is returned rather than printed.
- Http.Redirect: the resolution of a relative URL against the request path is not modelled;
  every URL is taken as absolute. BeginGoogleLogin and the callback pass absolute URLs, but the
  GoogleLogin handler accepts any URL from its service parameter. A Content-Type set before the
  redirect is taken to be absent, as it is in both handlers.
- Http.Reply: net/http adds a sniffed Content-Type and a Content-Length when the body is written;
  the model leaves the headers empty.
- PostgresRepo: the table schema is not part of the source. The model assumes `id` is a TEXT
  primary key, so a second insert with the same id fails as a duplicate key, and `google_id` has
  no unique constraint.
- Logger.Format: the format is a string in Go, and an unknown value takes the pretty branch of
  the switch; the model's three-valued datatype cannot hold an unknown format.
- Logger.Clean: Unix paths only; volume names are not modelled.
- JwtLibrary.ParseWithClaims: token decoding, HMAC signing and verification are uninterpreted
  functions, the error texts are approximations, and the audience and issuer options are not used.
- PostgresRepo.UserRepository.FindByGoogleID: Google ids are not assumed unique, so with
  several matching rows any one of them is returned.
- Config.JwtTTL: its own contract states only the default and the int64 range. The value for a
  JWT_TTL_SECONDS written as `%d` prints an int64, negative or wrapping, is stated in
  `Config.JwtTTLWrapsBeyondRange`; other text `%d` accepts (leading space, '+', a suffix) is not.
- Wiring (dependency injection, routes, server, main, database pool), the dashboard and
  market stubs, and the port interface files are not part of this model.
