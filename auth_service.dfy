/**
 * The login use cases: building the Google authorization URL (section 4.1.1 of RFC 6749) and
 * completing a login: exchange the code, find or create the user, issue a session token.
 * As written, the exchanged tokens are not used: the user looked up is always the stub Google
 * id, and no OAuth state is generated or checked.
 */
module AuthService {
  import opened Wrappers
  import opened Errors
  import opened Text
  import opened UrlQuery
  import opened DomainUser
  import opened PostgresRepo
  import Config
  import JwtLibrary
  import JwtProvider

  /** GoogleTokens: what the OAuth client returns for a code. */
  datatype GoogleTokens = GoogleTokens(accessToken: string, refreshToken: string, idToken: string, expiresIn: int, tokenType: string)

  const StubGoogleID := "stub-google-id"
  const StubEmail := "stub@example.com"

  /** The authorization endpoint. */
  const AuthScheme := "https"
  const AuthHost := "accounts.google.com"
  const AuthPath := "/o/oauth2/v2/auth"

  /** The query parameters BeginGoogleLogin sets, in the sorted order Values.Encode writes them. */
  function AuthorizationParams(cfg: Config.GoogleOAuthConfig): (params: seq<(string, string)>)
    ensures SortedKeys(params) && |params| == 5
    ensures params[0] == ("access_type", "offline") && params[1] == ("client_id", cfg.clientID)
    ensures params[2] == ("redirect_uri", cfg.redirectURL) && params[3] == ("response_type", "code")
    ensures params[4] == ("scope", "openid email profile")
  {
    [("access_type", "offline"),
     ("client_id", cfg.clientID),
     ("redirect_uri", cfg.redirectURL),
     ("response_type", "code"),
     ("scope", "openid email profile")]
  }

  /** Lookup by Google id ends in "not found": a missing row, or a failure that errors.Is matches to ErrNotFound. */
  predicate LookupNotFound(table: map<UserID, Row>, findFault: Option<Error>)
  {
    if findFault.Some? then IsNotFound(findFault.value) else !HasGoogleID(table, StubGoogleID)
  }

  /** The row CompleteGoogleLogin inserts for a first login: id "", the stub email and Google id, NOW() twice. */
  function FirstLoginRow(now: int): Row
  {
    Row(Some(StubEmail), Some(StubGoogleID), now, now)
  }

  class AuthServiceImpl {
    const cfg: Config.GoogleOAuthConfig
    const userRepo: UserRepository
    /** oauthClient.ExchangeCode */
    const exchangeCode: string -> Result<GoogleTokens, Error>
    /** tokenProvider.GenerateAccessToken(userID, email), given the clock reading it takes with time.Now() */
    const generateAccessToken: (string, Option<string>, int) -> Result<string, Error>

    constructor (
      cfg: Config.GoogleOAuthConfig,
      userRepo: UserRepository,
      exchangeCode: string -> Result<GoogleTokens, Error>,
      generateAccessToken: (string, Option<string>, int) -> Result<string, Error>)
      ensures this.cfg == cfg && this.userRepo == userRepo
      ensures this.exchangeCode == exchangeCode && this.generateAccessToken == generateAccessToken
    {
      this.cfg := cfg;
      this.userRepo := userRepo;
      this.exchangeCode := exchangeCode;
      this.generateAccessToken := generateAccessToken;
    }

    /**
     * BeginGoogleLogin: never fails; the authorization URL with client_id, redirect_uri,
     * response_type=code, the three scopes and offline access. The redirect argument is ignored.
     */
    function BeginGoogleLogin(redirectAfterLogin: string): (r: Result<string, Error>)
      ensures r.Ok?
      ensures r.value == AbsoluteURL(AuthScheme, AuthHost, AuthPath, Encode(AuthorizationParams(cfg)))
    {
      Ok(AbsoluteURL(AuthScheme, AuthHost, AuthPath, Encode(AuthorizationParams(cfg))))
    }

    /** Some row carries the stub Google id and `r` is the token generated at `now` for its id and email. */
    predicate IssuedForExisting(table: map<UserID, Row>, r: Result<string, Error>, now: int)
    {
      exists id :: id in table && table[id].googleID == Some(StubGoogleID) && r == generateAccessToken(id, table[id].email, now)
    }

    /**
     * CompleteGoogleLogin(code): exchange the code (its error is returned as is), look the stub
     * Google id up, create the user on "not found", and return the token generated for the
     * user's id and email. `now` is the login's clock reading, used both as the database's NOW()
     * and as the provider's time.Now(); `findFault` and `createFault` are
     * failures of the database during the lookup and the insert.
     */
    method CompleteGoogleLogin(code: string, now: int, findFault: Option<Error>, createFault: Option<Error>)
      returns (r: Result<string, Error>)
      modifies userRepo
      ensures exchangeCode(code).Err? ==> r == Err(exchangeCode(code).error) && userRepo.table == old(userRepo.table)
      ensures exchangeCode(code).Ok? && findFault.Some? && !IsNotFound(findFault.value) ==>
        r == Err(Wrapped("query user by google_id", findFault.value)) && userRepo.table == old(userRepo.table)
      ensures exchangeCode(code).Ok? && findFault.None? && HasGoogleID(old(userRepo.table), StubGoogleID) ==>
        userRepo.table == old(userRepo.table) && IssuedForExisting(old(userRepo.table), r, now)
      ensures exchangeCode(code).Ok? && LookupNotFound(old(userRepo.table), findFault) ==>
        (createFault.Some? ==> r == Err(Wrapped("insert user", createFault.value)) && userRepo.table == old(userRepo.table)) &&
        (createFault.None? && "" in old(userRepo.table) ==>
          r == Err(Wrapped("insert user", ErrDuplicateKey)) && userRepo.table == old(userRepo.table)) &&
        (createFault.None? && "" !in old(userRepo.table) ==>
          userRepo.table == old(userRepo.table)["" := FirstLoginRow(now)] && r == generateAccessToken("", Some(StubEmail), now))
    {
      var tokens := exchangeCode(code);
      if tokens.Err? {
        return Err(tokens.error);
      }
      var googleID := StubGoogleID;
      var email := Some(StubEmail);
      var found := userRepo.FindByGoogleID(googleID, findFault);
      var user: User;
      if found.Err? {
        if IsNotFound(found.error) {
          user := new User.Of("", email, Some(googleID), ZeroTime, ZeroTime);
          var err := userRepo.Create(user, now, createFault);
          if err.Some? {
            return Err(err.value);
          }
        } else {
          return Err(found.error);
        }
      } else {
        user := found.value;
      }
      var token := generateAccessToken(user.id, user.email, now);
      if token.Err? {
        return Err(token.error);
      }
      return Ok(token.value);
    }
  }

  /** The authorization URL never carries an OAuth state: no query key is "state". */
  lemma BeginGoogleLoginHasNoState(cfg: Config.GoogleOAuthConfig)
    ensures forall i :: 0 <= i < |AuthorizationParams(cfg)| ==> AuthorizationParams(cfg)[i].0 != "state"
  {
  }

  /** The encoded query is never empty, so the URL always ends in '?' and the query. */
  lemma {:induction false} BeginGoogleLoginURL(cfg: Config.GoogleOAuthConfig)
    ensures Encode(AuthorizationParams(cfg)) != ""
    ensures var query := Encode(AuthorizationParams(cfg));
      var url := AbsoluteURL(AuthScheme, AuthHost, AuthPath, query);
      |url| > |query| && url[|url| - |query| - 1..] == "?" + query
  {
    var params := AuthorizationParams(cfg);
    var fields := Fields(params);
    assert Encode(params) == fields[0] + "&" + Join(fields[1..], '&');
    assert |fields[0]| >= 1;
    var query := Encode(params);
    var head := AuthScheme + "://" + AuthHost + AuthPath;
    assert AbsoluteURL(AuthScheme, AuthHost, AuthPath, query) == head + ("?" + query);
  }

  /**
   * The query splits on '&' back into one "key=value" field per parameter, each of which splits
   * on '=' into the escaped key and the escaped value (client id and redirect URL included).
   */
  lemma {:induction false} BeginGoogleLoginQuery(cfg: Config.GoogleOAuthConfig)
    ensures Split(Encode(AuthorizationParams(cfg)), '&') == Fields(AuthorizationParams(cfg))
    ensures forall i :: 0 <= i < 5 ==>
      Split(Fields(AuthorizationParams(cfg))[i], '=') == [QueryEscape(AuthorizationParams(cfg)[i].0), QueryEscape(AuthorizationParams(cfg)[i].1)]
  {
    EncodeParsesBack(AuthorizationParams(cfg));
  }

  /**
   * Two logins against an empty table: the first creates the one user row, the second finds it;
   * both return the token for id "" and the stub email, each generated at its own login's
   * clock reading, and the table ends with that single row.
   */
  method FirstLoginCreatesSecondFinds(
    cfg: Config.GoogleOAuthConfig,
    exchangeCode: string -> Result<GoogleTokens, Error>,
    generateAccessToken: (string, Option<string>, int) -> Result<string, Error>,
    code: string, now: int, later: int)
    returns (first: Result<string, Error>, second: Result<string, Error>, table: map<UserID, Row>)
    requires exchangeCode(code).Ok?
    ensures first == generateAccessToken("", Some(StubEmail), now)
    ensures second == generateAccessToken("", Some(StubEmail), later)
    ensures table == map["" := FirstLoginRow(now)]
  {
    var repo := new UserRepository(map[]);
    var service := new AuthServiceImpl(cfg, repo, exchangeCode, generateAccessToken);
    assert !HasGoogleID(repo.table, StubGoogleID);
    first := service.CompleteGoogleLogin(code, now, None, None);
    assert repo.table[""].googleID == Some(StubGoogleID);
    second := service.CompleteGoogleLogin(code, later, None, None);
    table := repo.table;
  }

  /**
   * The same two logins with the service wired to the JWT provider: each token is the HS256
   * signature of the claims issued at that login's clock reading, for user id "" (the id the
   * inserted row is given) and the stub email.
   */
  method FirstLoginTokensFromProvider(
    cfg: Config.GoogleOAuthConfig,
    exchangeCode: string -> Result<GoogleTokens, Error>,
    p: JwtProvider.JwtProvider,
    sign: (JwtLibrary.SigningMethod, JwtLibrary.Claims, string) -> Result<string, Error>,
    code: string, now: int, later: int)
    returns (first: Result<string, Error>, second: Result<string, Error>)
    requires exchangeCode(code).Ok?
    ensures first == sign(JwtLibrary.HS256, JwtProvider.IssueClaims(p, "", Some(StubEmail), now), p.secret)
    ensures second == sign(JwtLibrary.HS256, JwtProvider.IssueClaims(p, "", Some(StubEmail), later), p.secret)
  {
    var generate := (id: string, email: Option<string>, at: int) => JwtProvider.GenerateAccessToken(p, id, email, at, sign);
    var table: map<UserID, Row>;
    first, second, table := FirstLoginCreatesSecondFinds(cfg, exchangeCode, generate, code, now, later);
  }
}
