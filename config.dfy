/**
 * Process configuration read from the environment: defaults for unset variables, the JWT
 * lifetime in seconds, and the comma-separated list of allowed CORS origins.
 */
module Config {
  import opened Wrappers
  import opened Text

  /** The process environment (after the optional .env file has been merged in). */
  type Env = map<string, string>

  /** os.Getenv: the value, or "" when the variable is unset. */
  function Getenv(env: Env, key: string): string
  {
    if key in env then env[key] else ""
  }

  datatype GoogleOAuthConfig = GoogleOAuthConfig(clientID: string, clientSecret: string, redirectURL: string)

  /** JWT settings; `ttl` is a time.Duration, an int64 count of nanoseconds. */
  datatype JWTConfig = JWTConfig(secret: string, ttl: int)

  datatype Config = Config(
    httpAddr: string,
    frontendURL: string,
    google: GoogleOAuthConfig,
    database: string,
    jwt: JWTConfig,
    corsOrigins: seq<string>)

  /** time.Second in nanoseconds. */
  const Second: int := 1_000_000_000

  /** getEnv: the variable's value when it is set to something non-empty, else the default. */
  function GetEnv(env: Env, key: string, defaultValue: string): (v: string)
    ensures Getenv(env, key) != "" ==> v == Getenv(env, key)
    ensures Getenv(env, key) == "" ==> v == defaultValue
  {
    var value := Getenv(env, key);
    if value != "" then value else defaultValue
  }

  /** An empty variable is the same as an unset one. */
  lemma GetEnvEmptyIsUnset(env: Env, key: string, defaultValue: string)
    requires key in env && env[key] == ""
    ensures GetEnv(env, key, defaultValue) == GetEnv(env - {key}, key, defaultValue) == defaultValue
  {
  }

  /**
   * getEnvAsInt: the number fmt.Sscanf("%d") reads from the variable, or the default when the
   * variable is unset, empty, or does not start (after white space) with a signed int64.
   */
  function GetEnvAsInt(env: Env, name: string, defaultVal: int): (v: int)
    ensures Getenv(env, name) == "" ==> v == defaultVal
    ensures Getenv(env, name) != "" && ScanInt(Getenv(env, name)).Some? ==> v == ScanInt(Getenv(env, name)).value
    ensures ScanInt(Getenv(env, name)).None? ==> v == defaultVal
  {
    var valueStr := Getenv(env, name);
    if valueStr != "" then
      match ScanInt(valueStr)
      case Some(value) => value
      case None => defaultVal
    else defaultVal
  }

  /** A variable holding a printed int64 is read back as that number. */
  lemma {:induction false} GetEnvAsIntReadsPrinted(env: Env, name: string, defaultVal: int, n: int)
    requires Int64Min <= n <= Int64Max
    requires name in env && env[name] == FormatInt(n)
    ensures GetEnvAsInt(env, name, defaultVal) == n
  {
    ScanFormatRoundTrip(n);
  }

  /** Text after the digits is ignored: "90s" reads as 90, not as the default. */
  lemma {:induction false} GetEnvAsIntIgnoresSuffix(env: Env, name: string, defaultVal: int, n: nat, suffix: string)
    requires n <= Int64Max
    requires suffix == [] || !IsDigit(suffix[0])
    requires name in env && env[name] == FormatNat(n) + suffix
    ensures GetEnvAsInt(env, name, defaultVal) == n
  {
    ScanStopsAtFirstNonDigit(n, suffix);
  }

  /** JWT.TTL: JWT_TTL_SECONDS (default 3600) times time.Second, in int64 arithmetic. */
  function JwtTTL(env: Env): (ttl: int)
    ensures Getenv(env, "JWT_TTL_SECONDS") == "" ==> ttl == 3600 * Second
    ensures Int64Min <= ttl <= Int64Max
  {
    WrapInt64(GetEnvAsInt(env, "JWT_TTL_SECONDS", 3600) * Second)
  }

  /**
   * Any int64 number of seconds, negative ones included, becomes n * time.Second in int64
   * arithmetic: exactly n seconds while that fits, wrapped around beyond about 9.2e9 seconds.
   */
  lemma {:induction false} JwtTTLWrapsBeyondRange(env: Env, n: int)
    requires Int64Min <= n <= Int64Max
    requires "JWT_TTL_SECONDS" in env && env["JWT_TTL_SECONDS"] == FormatInt(n)
    ensures Int64Min <= n * Second <= Int64Max ==> JwtTTL(env) == n * Second
    ensures JwtTTL(env) == WrapInt64(n * Second)
  {
    GetEnvAsIntReadsPrinted(env, "JWT_TTL_SECONDS", 3600, n);
  }

  /** Each segment with the white space at both ends removed. */
  function Trimmed(parts: seq<string>): (r: seq<string>)
    ensures |r| == |parts|
    ensures forall i :: 0 <= i < |r| ==> r[i] == TrimSpace(parts[i])
  {
    seq(|parts|, i requires 0 <= i < |parts| => TrimSpace(parts[i]))
  }

  /** The allowed origins Load derives from the value of CORS_ORIGINS. */
  function CorsOrigins(value: string): seq<string>
  {
    if value == "" then [] else Trimmed(Split(value, ','))
  }

  /** A non-empty CORS_ORIGINS gives one trimmed origin per comma-separated segment, empty ones kept. */
  lemma CorsOriginsShape(value: string)
    requires value != ""
    ensures |CorsOrigins(value)| == Count(value, ',') + 1
    ensures forall i :: 0 <= i < |CorsOrigins(value)| ==>
      CorsOrigins(value)[i] == TrimSpace(Split(value, ',')[i]) && ',' !in Split(value, ',')[i]
  {
  }

  /** Writing trimmed, comma-free origins joined by commas into CORS_ORIGINS gives them back. */
  lemma {:induction false} CorsOriginsRoundTrip(origins: seq<string>)
    requires |origins| >= 1
    requires forall i :: 0 <= i < |origins| ==> ',' !in origins[i] && TrimSpace(origins[i]) == origins[i]
    requires Join(origins, ',') != ""
    ensures CorsOrigins(Join(origins, ',')) == origins
  {
    SplitJoin(origins, ',');
  }

  /** The loop of Load: every element of the slice replaced by its trimmed self, in place. */
  method TrimAll(a: array<string>)
    modifies a
    ensures forall i :: 0 <= i < a.Length ==> a[i] == TrimSpace(old(a[i]))
  {
    var i := 0;
    while i < a.Length
      invariant 0 <= i <= a.Length
      invariant forall j :: 0 <= j < i ==> a[j] == TrimSpace(old(a[j]))
      invariant forall j :: i <= j < a.Length ==> a[j] == old(a[j])
    {
      a[i] := TrimSpace(a[i]);
      i := i + 1;
    }
  }

  /** Load: the configuration the environment describes, with the documented defaults. */
  method Load(env: Env) returns (c: Config)
    ensures c.corsOrigins == CorsOrigins(Getenv(env, "CORS_ORIGINS"))
    ensures c.httpAddr == GetEnv(env, "HTTP_ADDR", ":8080")
    ensures c.frontendURL == GetEnv(env, "FRONTEND_URL", "http://localhost:3000")
    ensures c.google == GoogleOAuthConfig(
      Getenv(env, "GOOGLE_CLIENT_ID"), Getenv(env, "GOOGLE_CLIENT_SECRET"), Getenv(env, "GOOGLE_REDIRECT_URL"))
    ensures c.database == Getenv(env, "DATABASE_URL")
    ensures c.jwt == JWTConfig(Getenv(env, "JWT_SECRET"), JwtTTL(env))
  {
    var corsOriginsStr := Getenv(env, "CORS_ORIGINS");
    var corsOrigins: seq<string> := [];
    if corsOriginsStr != "" {
      var parts := Split(corsOriginsStr, ',');
      var a := new string[|parts|](i requires 0 <= i < |parts| => parts[i]);
      TrimAll(a);
      corsOrigins := a[..];
    }
    c := Config(
      GetEnv(env, "HTTP_ADDR", ":8080"),
      GetEnv(env, "FRONTEND_URL", "http://localhost:3000"),
      GoogleOAuthConfig(Getenv(env, "GOOGLE_CLIENT_ID"), Getenv(env, "GOOGLE_CLIENT_SECRET"), Getenv(env, "GOOGLE_REDIRECT_URL")),
      Getenv(env, "DATABASE_URL"),
      JWTConfig(Getenv(env, "JWT_SECRET"), JwtTTL(env)),
      corsOrigins);
  }
}
