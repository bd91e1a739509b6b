/**
 * The HTTP handlers of the login flow: /auth/google/login redirects to the provider, and
 * /auth/google/callback checks its parameters, completes the login and redirects to the
 * frontend with the session token. The service is a parameter. The callback handler is modelled
 * against the service signature it calls, (code, state) -> (token, redirectAfter, error).
 */
module AuthHandlers {
  import opened Wrappers
  import opened Errors
  import opened Http

  const FrontendURL := "http://localhost:3000"
  const BodyCannotStart := "{\"error\":\"cannot start google login\"}"
  const BodyMissingCode := "{\"error\":\"missing code\"}"
  const BodyMissingState := "{\"error\":\"missing state\"}"
  const BodyCannotComplete := "{\"error\":\"cannot complete google login\"}"

  /** GoogleLogin: hand the `redirect` query value to the service and redirect to the URL it returns. */
  function GoogleLogin(requestMethod: string, query: Query, begin: string -> Result<string, Error>): (resp: Response)
    ensures begin(QueryGet(query, "redirect")).Ok? ==>
      resp == Redirect(requestMethod, begin(QueryGet(query, "redirect")).value)
    ensures begin(QueryGet(query, "redirect")).Err? ==> resp == Reply(StatusInternalServerError, BodyCannotStart)
  {
    var redirectAfter := QueryGet(query, "redirect");
    match begin(redirectAfter)
    case Err(_) => Reply(StatusInternalServerError, BodyCannotStart)
    case Ok(url) => Redirect(requestMethod, url)
  }

  /**
   * GoogleCallback: 400 for a missing code (checked first), then for a missing state; the
   * service is asked only with both present; its error gives 500; otherwise 302 to the frontend
   * root with the token, whatever redirect target the service returned.
   */
  function GoogleCallback(requestMethod: string, query: Query, complete: (string, string) -> Result<(string, string), Error>): (resp: Response)
    ensures QueryGet(query, "code") == "" ==> resp == Reply(StatusBadRequest, BodyMissingCode)
    ensures QueryGet(query, "code") != "" && QueryGet(query, "state") == "" ==> resp == Reply(StatusBadRequest, BodyMissingState)
    ensures QueryGet(query, "code") != "" && QueryGet(query, "state") != "" ==>
      var outcome := complete(QueryGet(query, "code"), QueryGet(query, "state"));
      (outcome.Err? ==> resp == Reply(StatusInternalServerError, BodyCannotComplete)) &&
      (outcome.Ok? ==> resp == Redirect(requestMethod, FrontendURL + "/?token=" + outcome.value.0))
  {
    var code := QueryGet(query, "code");
    if code == "" then Reply(StatusBadRequest, BodyMissingCode)
    else
      var state := QueryGet(query, "state");
      if state == "" then Reply(StatusBadRequest, BodyMissingState)
      else
        match complete(code, state)
        case Err(_) => Reply(StatusInternalServerError, BodyCannotComplete)
        case Ok((token, redirectAfter)) =>
          var frontendURL := FrontendURL;
          Redirect(requestMethod, frontendURL + "/?token=" + token)
  }

  /** Without both parameters the service is never consulted: any two services give the same answer. */
  lemma CallbackGuardsIgnoreService(requestMethod: string, query: Query,
    complete1: (string, string) -> Result<(string, string), Error>,
    complete2: (string, string) -> Result<(string, string), Error>)
    requires QueryGet(query, "code") == "" || QueryGet(query, "state") == ""
    ensures GoogleCallback(requestMethod, query, complete1) == GoogleCallback(requestMethod, query, complete2)
    ensures GoogleCallback(requestMethod, query, complete1).status == StatusBadRequest
  {
  }

  /** The frontend target ignores the redirect the service returned: two outcomes with the same token redirect alike. */
  lemma CallbackIgnoresRedirectAfter(requestMethod: string, query: Query, token: string, after1: string, after2: string)
    requires QueryGet(query, "code") != "" && QueryGet(query, "state") != ""
    ensures GoogleCallback(requestMethod, query, (c, s) => Ok((token, after1))) ==
      GoogleCallback(requestMethod, query, (c, s) => Ok((token, after2)))
  {
  }

  /**
   * The token can be read back from the Location of a successful callback: everything after
   * "/?token=" is the token with its non-ASCII bytes escaped, so an ASCII token (a JWT is one)
   * comes back unchanged.
   */
  lemma {:induction false} CallbackLocationCarriesToken(
    requestMethod: string, query: Query, complete: (string, string) -> Result<(string, string), Error>)
    requires QueryGet(query, "code") != "" && QueryGet(query, "state") != ""
    requires complete(QueryGet(query, "code"), QueryGet(query, "state")).Ok?
    ensures var location := GoogleCallback(requestMethod, query, complete).headers["Location"];
      FrontendURL + "/?token=" <= location &&
      location[|FrontendURL + "/?token="|..] == HexEscapeNonASCII(complete(QueryGet(query, "code"), QueryGet(query, "state")).value.0)
    ensures var token := complete(QueryGet(query, "code"), QueryGet(query, "state")).value.0;
      IsASCII(token) ==> GoogleCallback(requestMethod, query, complete).headers["Location"][|FrontendURL + "/?token="|..] == token
  {
    var token := complete(QueryGet(query, "code"), QueryGet(query, "state")).value.0;
    var prefix := FrontendURL + "/?token=";
    assert IsASCII(prefix);
    HexEscapeConcat(prefix, token);
    assert GoogleCallback(requestMethod, query, complete).headers["Location"] == prefix + HexEscapeNonASCII(token);
  }
}
