/**
 * The session token provider: it issues HS256 JWTs carrying the user's id and email with
 * `exp`, `iat`, `nbf`, `iss` and `sub` set (section 4.1 of RFC 7519), and accepts back only
 * tokens signed with an HMAC method under its secret and valid at the time of the check.
 * Signing and verification are the uninterpreted primitives of the JWT library model.
 */
module JwtProvider {
  import opened Wrappers
  import opened Errors
  import opened JwtLibrary
  import Config

  const Issuer := "steam-observer"
  const ErrUnexpectedSigningMethod: Error := Plain("unexpected signing method")
  const ErrInvalidToken: Error := Plain("invalid token")

  /** jwt.NewNumericDate: the time cut down to a whole second. */
  function NumericDate(t: int): (d: int)
    ensures d <= t < d + Config.Second
    ensures d % Config.Second == 0
  {
    t - t % Config.Second
  }

  /** Cutting to whole seconds keeps the order of two times. */
  lemma NumericDateMonotonic(a: int, b: int)
    requires a <= b
    ensures NumericDate(a) <= NumericDate(b)
  {
  }

  /** jwtProvider: the HMAC secret and the lifetime of issued tokens (a time.Duration). */
  datatype JwtProvider = JwtProvider(secret: string, ttl: int)

  /** The claims a token carries once it has been accepted. */
  datatype TokenClaims = TokenClaims(userID: string, email: Option<string>)

  /** ParseAccessToken's three results: user id, email, error. */
  datatype ParseResult = ParseResult(userID: string, email: Option<string>, err: Option<Error>)

  /** NewJWTProvider: the secret and the lifetime from the configuration. */
  function NewJWTProvider(cfg: Config.JWTConfig): (p: JwtProvider)
    ensures p.secret == cfg.secret && p.ttl == cfg.ttl
  {
    JwtProvider(cfg.secret, cfg.ttl)
  }

  /**
   * The claims GenerateAccessToken signs at `now`: the arguments as user_id, email and sub,
   * the fixed issuer, iat = nbf = now and exp = now + ttl, each cut to whole seconds.
   */
  function IssueClaims(p: JwtProvider, userID: string, email: Option<string>, now: int): (c: Claims)
    ensures c.userID == userID && c.subject == userID && c.email == email && c.issuer == Issuer
    ensures c.issuedAt == c.notBefore == Some(NumericDate(now))
    ensures c.expiresAt == Some(NumericDate(now + p.ttl))
    ensures c.issuedAt.value <= now < c.issuedAt.value + Config.Second
    ensures c.expiresAt.value <= now + p.ttl < c.expiresAt.value + Config.Second
  {
    Claims(userID, email, Some(NumericDate(now + p.ttl)), Some(NumericDate(now)), Some(NumericDate(now)), Issuer, userID)
  }

  /** GenerateAccessToken: the issued claims signed with HS256 and the secret by `sign`. */
  function GenerateAccessToken(
    p: JwtProvider, userID: string, email: Option<string>, now: int,
    sign: (SigningMethod, Claims, string) -> Result<string, Error>): (r: Result<string, Error>)
    ensures r == sign(HS256, IssueClaims(p, userID, email, now), p.secret)
  {
    sign(HS256, IssueClaims(p, userID, email, now), p.secret)
  }

  /** The key function of ValidateToken: the secret for an HMAC token, an error for any other method. */
  function KeyFunc(p: JwtProvider, alg: SigningMethod): (r: Result<string, Error>)
    ensures r.Ok? <==> IsHMAC(alg)
    ensures r.Ok? ==> r.value == p.secret
    ensures r.Err? ==> r.error == ErrUnexpectedSigningMethod
  {
    if !IsHMAC(alg) then Err(ErrUnexpectedSigningMethod) else Ok(p.secret)
  }

  /** The token passes every check of ParseWithClaims under this provider's key function. */
  predicate Accepted(p: JwtProvider, lib: Library, tokenString: string, now: int)
  {
    var t := lib.decode(tokenString);
    t.Some? && IsHMAC(t.value.alg) && t.value.signature.Some? &&
    lib.verify(t.value.alg, t.value.signingInput, t.value.signature.value, p.secret) &&
    ClaimsProblems(t.value.claims, now) == []
  }

  /**
   * ValidateToken: the user id and email of the claims when the library accepts the token,
   * the library's error otherwise.
   */
  function ValidateToken(p: JwtProvider, lib: Library, tokenString: string, now: int): (r: Result<TokenClaims, Error>)
    ensures r.Ok? <==> Accepted(p, lib, tokenString, now)
    ensures r.Ok? ==> var c := lib.decode(tokenString).value.claims; r.value == TokenClaims(c.userID, c.email)
  {
    match ParseWithClaims(lib, tokenString, alg => KeyFunc(p, alg), now)
    case Err(e) => Err(e)
    case Ok(token) =>
      if token.valid then Ok(TokenClaims(token.claims.userID, token.claims.email))
      else Err(ErrInvalidToken)
  }

  /** ParseAccessToken: ValidateToken's id and email, or its error with an empty id and no email. */
  function ParseAccessToken(p: JwtProvider, lib: Library, tokenString: string, now: int): (r: ParseResult)
    ensures r.err.None? <==> Accepted(p, lib, tokenString, now)
    ensures r.err.None? ==> var c := lib.decode(tokenString).value.claims; r.userID == c.userID && r.email == c.email
    ensures r.err.Some? ==> r.userID == "" && r.email.None? && Err(r.err.value) == ValidateToken(p, lib, tokenString, now)
  {
    match ValidateToken(p, lib, tokenString, now)
    case Err(e) => ParseResult("", None, Some(e))
    case Ok(claims) => ParseResult(claims.userID, claims.email, None)
  }

  /** A token whose header names a non-HMAC method is refused before its signature is looked at. */
  lemma NonHMACRejected(p: JwtProvider, lib: Library, tokenString: string, now: int)
    requires lib.decode(tokenString).Some? && !IsHMAC(lib.decode(tokenString).value.alg)
    ensures ValidateToken(p, lib, tokenString, now) == Err(Wrapped(KeyFuncContext, ErrUnexpectedSigningMethod))
  {
  }

  /** The "invalid token" branch of ValidateToken is dead: the library never returns an invalid token without an error. */
  lemma InvalidTokenBranchDead(p: JwtProvider, lib: Library, tokenString: string, now: int)
    ensures ValidateToken(p, lib, tokenString, now) != Err(ErrInvalidToken)
  {
  }

  /** The shape of a token this provider issued at `issued`, as the library decodes it. */
  predicate IssuedBy(p: JwtProvider, lib: Library, tokenString: string, userID: string, email: Option<string>, issued: int)
  {
    var t := lib.decode(tokenString);
    t.Some? && t.value.alg == HS256 && t.value.claims == IssueClaims(p, userID, email, issued) &&
    t.value.signature.Some? && lib.verify(HS256, t.value.signingInput, t.value.signature.value, p.secret)
  }

  /**
   * Round trip: a token issued at `issued` is accepted from the start of its second of issue
   * until just before its expiry second, and yields the user id and email it was issued for.
   */
  lemma IssuedTokenAccepted(p: JwtProvider, lib: Library, tokenString: string, userID: string, email: Option<string>, issued: int, now: int)
    requires IssuedBy(p, lib, tokenString, userID, email, issued)
    requires NumericDate(issued) <= now < NumericDate(issued + p.ttl)
    ensures ValidateToken(p, lib, tokenString, now) == Ok(TokenClaims(userID, email))
    ensures ParseAccessToken(p, lib, tokenString, now) == ParseResult(userID, email, None)
  {
  }

  /**
   * The library reads back what `sign` produces: a token it returns decodes to the signing
   * method and claims it was given, with a signature that verifies under the key it was given.
   */
  ghost predicate SignDecodes(lib: Library, sign: (SigningMethod, Claims, string) -> Result<string, Error>)
  {
    forall m, c, k :: sign(m, c, k).Ok? ==>
      var t := lib.decode(sign(m, c, k).value);
      t.Some? && t.value.alg == m && t.value.claims == c && t.value.signature.Some? &&
      lib.verify(m, t.value.signingInput, t.value.signature.value, k)
  }

  /**
   * Round trip through the provider: with a library that decodes what the signer produces, a
   * token GenerateAccessToken returned at `issued` parses back, within its lifetime, to the user
   * id and email it was generated for.
   */
  lemma {:induction false} GeneratedTokenParsesBack(
    p: JwtProvider, lib: Library, sign: (SigningMethod, Claims, string) -> Result<string, Error>,
    userID: string, email: Option<string>, issued: int, now: int, token: string)
    requires SignDecodes(lib, sign)
    requires GenerateAccessToken(p, userID, email, issued, sign) == Ok(token)
    requires NumericDate(issued) <= now < NumericDate(issued + p.ttl)
    ensures ParseAccessToken(p, lib, token, now) == ParseResult(userID, email, None)
  {
    assert IssuedBy(p, lib, token, userID, email, issued);
    IssuedTokenAccepted(p, lib, token, userID, email, issued, now);
  }

  /** An issued token is refused from its expiry second on, and before its second of issue. */
  lemma IssuedTokenRefusedOutsideLifetime(p: JwtProvider, lib: Library, tokenString: string, userID: string, email: Option<string>, issued: int, now: int)
    requires IssuedBy(p, lib, tokenString, userID, email, issued)
    requires now < NumericDate(issued) || now >= NumericDate(issued + p.ttl)
    ensures ValidateToken(p, lib, tokenString, now).Err?
    ensures ParseAccessToken(p, lib, tokenString, now) == ParseResult("", None, Some(ValidateToken(p, lib, tokenString, now).error))
  {
  }

  /** With a lifetime of zero or less (a negative TTL after int64 wrap-around), no issued token is ever accepted. */
  lemma {:induction false} NonPositiveTTLNeverAccepted(p: JwtProvider, lib: Library, tokenString: string, userID: string, email: Option<string>, issued: int, now: int)
    requires p.ttl <= 0
    requires IssuedBy(p, lib, tokenString, userID, email, issued)
    ensures ValidateToken(p, lib, tokenString, now).Err?
  {
    NumericDateMonotonic(issued + p.ttl, issued);
    IssuedTokenRefusedOutsideLifetime(p, lib, tokenString, userID, email, issued, now);
  }
}
