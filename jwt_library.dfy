/**
 * The part of golang-jwt v5 the token provider relies on: the claims it carries and the order
 * of the checks ParseWithClaims performs. Decoding (base64url and JSON) and the signature
 * algorithms are uninterpreted functions; what is modelled is which check runs when and which
 * outcome each produces. Times are Unix nanoseconds.
 */
module JwtLibrary {
  import opened Wrappers
  import opened Errors
  import opened Text

  /** The `alg` of a token header. Only the HMAC family is accepted by the provider. */
  datatype SigningMethod = HS256 | HS384 | HS512 | RS256 | ES256 | EdDSA | Unsecured

  /** The method is a *jwt.SigningMethodHMAC. */
  predicate IsHMAC(m: SigningMethod)
  {
    m == HS256 || m == HS384 || m == HS512
  }

  /**
   * The provider's Claims: its own user_id and optional email, and the registered claims it sets
   * (section 4.1 of RFC 7519). Dates are NumericDates, already cut to whole seconds.
   */
  datatype Claims = Claims(
    userID: string,
    email: Option<string>,
    expiresAt: Option<int>,
    issuedAt: Option<int>,
    notBefore: Option<int>,
    issuer: string,
    subject: string)

  /**
   * A token string split and decoded: its header's alg, its claims, the signing input
   * (header.payload) and the decoded signature (None when that segment is not valid base64url).
   */
  datatype DecodedToken = DecodedToken(alg: SigningMethod, claims: Claims, signingInput: string, signature: Option<string>)

  /** What ParseWithClaims hands back on success. */
  datatype ParsedToken = ParsedToken(alg: SigningMethod, claims: Claims, valid: bool)

  /**
   * The cryptographic and encoding primitives, left uninterpreted:
   * `decode` is ParseUnverified (None for a malformed token), `verify(m, input, sig, key)` is
   * Method.Verify.
   */
  datatype Library = Library(
    decode: string -> Option<DecodedToken>,
    verify: (SigningMethod, string, string, string) -> bool)

  const ErrTokenMalformed: Error := Plain("token is malformed")
  const ErrTokenSignatureInvalid: Error := Plain("token signature is invalid")
  const KeyFuncContext := "token is unverifiable: error while executing keyfunc"
  const InvalidClaimsContext := "token has invalid claims"

  /**
   * The default validator with no leeway: `exp`, when present, must be strictly after now;
   * `nbf`, when present, must not be after now. `iat` is not checked by default.
   */
  function ClaimsProblems(c: Claims, now: int): (problems: seq<string>)
    ensures problems == [] <==>
      (c.expiresAt.None? || now < c.expiresAt.value) && (c.notBefore.None? || now >= c.notBefore.value)
  {
    (if c.expiresAt.Some? && !(now < c.expiresAt.value) then ["token is expired"] else [])
    + (if c.notBefore.Some? && now < c.notBefore.value then ["token is not valid yet"] else [])
  }

  /**
   * ParseWithClaims: decode; ask the key function for the key; check the signature with it;
   * validate the claims at `now`; only then is the token valid. The first failing step decides
   * the error.
   */
  function ParseWithClaims(lib: Library, tokenString: string, keyFunc: SigningMethod -> Result<string, Error>, now: int)
    : (r: Result<ParsedToken, Error>)
    ensures r.Ok? ==> r.value.valid
    ensures r.Ok? ==> var t := lib.decode(tokenString);
      t.Some? && keyFunc(t.value.alg).Ok? && t.value.signature.Some? &&
      lib.verify(t.value.alg, t.value.signingInput, t.value.signature.value, keyFunc(t.value.alg).value) &&
      ClaimsProblems(t.value.claims, now) == [] &&
      r.value.claims == t.value.claims && r.value.alg == t.value.alg
    ensures var t := lib.decode(tokenString);
      t.Some? && keyFunc(t.value.alg).Ok? && t.value.signature.Some? &&
      lib.verify(t.value.alg, t.value.signingInput, t.value.signature.value, keyFunc(t.value.alg).value) &&
      ClaimsProblems(t.value.claims, now) == [] ==>
      r == Ok(ParsedToken(t.value.alg, t.value.claims, true))
    ensures lib.decode(tokenString).None? ==> r == Err(ErrTokenMalformed)
    ensures lib.decode(tokenString).Some? && keyFunc(lib.decode(tokenString).value.alg).Err? ==>
      r == Err(Wrapped(KeyFuncContext, keyFunc(lib.decode(tokenString).value.alg).error))
  {
    match lib.decode(tokenString)
    case None => Err(ErrTokenMalformed)
    case Some(t) =>
      match keyFunc(t.alg)
      case Err(e) => Err(Wrapped(KeyFuncContext, e))
      case Ok(key) =>
        if t.signature.None? then Err(ErrTokenMalformed)
        else if !lib.verify(t.alg, t.signingInput, t.signature.value, key) then Err(ErrTokenSignatureInvalid)
        else
          var problems := ClaimsProblems(t.claims, now);
          if |problems| > 0 then Err(Wrapped(InvalidClaimsContext, Plain(Join(problems, '\n'))))
          else Ok(ParsedToken(t.alg, t.claims, true))
  }
}
