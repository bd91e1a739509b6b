/**
 * The authentication middleware: a request passes only with an "Authorization: Bearer <token>"
 * header whose token the token provider accepts; the next handler then sees the user id in the
 * request context. Warnings and the info line it logs are not modelled.
 */
module AuthMiddleware {
  import opened Wrappers
  import opened Errors
  import opened Text
  import opened Http
  import JwtLibrary
  import JwtProvider

  /** Context keys: the middleware's private userID key, or a key some other package set. */
  datatype CtxKey = UserIDKey | OtherKey(name: string)

  /** Context values: a string, or a value of some other dynamic type. */
  datatype CtxValue = Str(s: string) | NonString(typeName: string)

  type Context = map<CtxKey, CtxValue>

  const BearerPrefix := "Bearer "
  const BodyMissingHeader := "{\"error\":\"missing or invalid authorization header\"}"
  const BodyInvalidToken := "{\"error\":\"invalid token\"}"

  /** What the middleware does with a request: answer it itself, or call the next handler once with this context. */
  datatype Outcome = Rejected(resp: Response) | Next(ctx: Context)

  /** UserIDFromContext: the value under the userID key when it is a string, and whether it was. */
  function UserIDFromContext(ctx: Context): (r: (string, bool))
    ensures r.1 <==> UserIDKey in ctx && ctx[UserIDKey].Str?
    ensures r.1 ==> r.0 == ctx[UserIDKey].s
    ensures !r.1 ==> r.0 == ""
  {
    if UserIDKey in ctx && ctx[UserIDKey].Str? then (ctx[UserIDKey].s, true) else ("", false)
  }

  /**
   * Auth: 401 when the header is empty or lacks the "Bearer " prefix; otherwise the token after
   * one prefix goes to `parse` (the provider's ParseAccessToken); its error gives 401, and
   * success calls the next handler with the user id stored in the context.
   */
  function Auth(authHeader: string, ctx: Context, parse: string -> JwtProvider.ParseResult): (out: Outcome)
    ensures !(BearerPrefix <= authHeader) ==> out == Rejected(Reply(StatusUnauthorized, BodyMissingHeader))
    ensures BearerPrefix <= authHeader ==>
      var parsed := parse(authHeader[|BearerPrefix|..]);
      (parsed.err.Some? ==> out == Rejected(Reply(StatusUnauthorized, BodyInvalidToken))) &&
      (parsed.err.None? ==> out == Next(ctx[UserIDKey := Str(parsed.userID)]))
  {
    if authHeader == "" || !(BearerPrefix <= authHeader) then
      Rejected(Reply(StatusUnauthorized, BodyMissingHeader))
    else
      var rawToken := TrimPrefix(authHeader, BearerPrefix);
      var parsed := parse(rawToken);
      if parsed.err.Some? then Rejected(Reply(StatusUnauthorized, BodyInvalidToken))
      else Next(ctx[UserIDKey := Str(parsed.userID)])
  }

  /** Round trip: whatever the incoming context held, a handler behind Auth reads back the accepted user id. */
  lemma AuthThenUserID(authHeader: string, ctx: Context, parse: string -> JwtProvider.ParseResult)
    requires Auth(authHeader, ctx, parse).Next?
    ensures BearerPrefix <= authHeader
    ensures UserIDFromContext(Auth(authHeader, ctx, parse).ctx) == (parse(authHeader[|BearerPrefix|..]).userID, true)
  {
  }

  /** Auth only adds the user id: every other context entry reaches the next handler unchanged. */
  lemma AuthKeepsOtherContext(authHeader: string, ctx: Context, parse: string -> JwtProvider.ParseResult, key: CtxKey)
    requires Auth(authHeader, ctx, parse).Next? && key != UserIDKey
    ensures key in Auth(authHeader, ctx, parse).ctx <==> key in ctx
    ensures key in ctx ==> Auth(authHeader, ctx, parse).ctx[key] == ctx[key]
  {
  }

  /** Only one "Bearer " is removed: the parser sees the rest of the header verbatim, even a second prefix. */
  lemma {:induction false} OnePrefixTrimmed(token: string, ctx: Context, parse: string -> JwtProvider.ParseResult)
    ensures parse(token).err.None? ==> Auth(BearerPrefix + token, ctx, parse) == Next(ctx[UserIDKey := Str(parse(token).userID)])
    ensures parse(token).err.Some? ==> Auth(BearerPrefix + token, ctx, parse) == Rejected(Reply(StatusUnauthorized, BodyInvalidToken))
  {
    assert BearerPrefix <= BearerPrefix + token;
    assert (BearerPrefix + token)[|BearerPrefix|..] == token;
  }

  /**
   * End to end with the token provider: a token the provider issued, presented within its
   * lifetime, lets the request through carrying the id it was issued for.
   */
  lemma {:induction false} IssuedTokenPasses(
    p: JwtProvider.JwtProvider, lib: JwtLibrary.Library, token: string,
    userID: string, email: Option<string>, issued: int, now: int, ctx: Context)
    requires JwtProvider.IssuedBy(p, lib, token, userID, email, issued)
    requires JwtProvider.NumericDate(issued) <= now < JwtProvider.NumericDate(issued + p.ttl)
    ensures Auth(BearerPrefix + token, ctx, t => JwtProvider.ParseAccessToken(p, lib, t, now)) == Next(ctx[UserIDKey := Str(userID)])
  {
    JwtProvider.IssuedTokenAccepted(p, lib, token, userID, email, issued, now);
    OnePrefixTrimmed(token, ctx, t => JwtProvider.ParseAccessToken(p, lib, t, now));
  }

  /**
   * End to end from issue to request: a token GenerateAccessToken returned, signed by a signer
   * the library can read back and presented within its lifetime, lets the request through
   * carrying the id it was generated for.
   */
  lemma {:induction false} GeneratedTokenPasses(
    p: JwtProvider.JwtProvider, lib: JwtLibrary.Library,
    sign: (JwtLibrary.SigningMethod, JwtLibrary.Claims, string) -> Result<string, Error>,
    userID: string, email: Option<string>, issued: int, now: int, token: string, ctx: Context)
    requires JwtProvider.SignDecodes(lib, sign)
    requires JwtProvider.GenerateAccessToken(p, userID, email, issued, sign) == Ok(token)
    requires JwtProvider.NumericDate(issued) <= now < JwtProvider.NumericDate(issued + p.ttl)
    ensures Auth(BearerPrefix + token, ctx, t => JwtProvider.ParseAccessToken(p, lib, t, now)) == Next(ctx[UserIDKey := Str(userID)])
  {
    JwtProvider.GeneratedTokenParsesBack(p, lib, sign, userID, email, issued, now, token);
    OnePrefixTrimmed(token, ctx, t => JwtProvider.ParseAccessToken(p, lib, t, now));
  }

  /** The same token presented after its expiry second is refused with "invalid token". */
  lemma {:induction false} ExpiredTokenRefused(
    p: JwtProvider.JwtProvider, lib: JwtLibrary.Library, token: string,
    userID: string, email: Option<string>, issued: int, now: int, ctx: Context)
    requires JwtProvider.IssuedBy(p, lib, token, userID, email, issued)
    requires now >= JwtProvider.NumericDate(issued + p.ttl)
    ensures Auth(BearerPrefix + token, ctx, t => JwtProvider.ParseAccessToken(p, lib, t, now)) == Rejected(Reply(StatusUnauthorized, BodyInvalidToken))
  {
    JwtProvider.IssuedTokenRefusedOutsideLifetime(p, lib, token, userID, email, issued, now);
    OnePrefixTrimmed(token, ctx, t => JwtProvider.ParseAccessToken(p, lib, t, now));
  }
}
