/**
 * The CORS middleware: an Origin found in the allow-list gets the credentialed CORS headers;
 * a preflight (OPTIONS) request is answered 200 on the spot, every other request goes on to
 * the next handler, allowed or not.
 */
module CorsMiddleware {
  import opened Http
  import Config
  import Text

  const AllowMethods := "GET,POST,PUT,DELETE,OPTIONS,PATCH"
  const AllowHeaders := "Content-Type,Authorization"
  const MaxAge := "86400"
  const MethodOptions := "OPTIONS"

  /** The headers set for an allowed origin. */
  function CorsHeaders(origin: string): (h: Header)
    ensures h.Keys == {"Access-Control-Allow-Origin", "Access-Control-Allow-Credentials",
      "Access-Control-Allow-Methods", "Access-Control-Allow-Headers", "Access-Control-Max-Age"}
    ensures h["Access-Control-Allow-Origin"] == origin && h["Access-Control-Allow-Credentials"] == "true"
    ensures h["Access-Control-Allow-Methods"] == "GET,POST,PUT,DELETE,OPTIONS,PATCH"
    ensures h["Access-Control-Allow-Headers"] == "Content-Type,Authorization"
    ensures h["Access-Control-Max-Age"] == "86400"
  {
    map["Access-Control-Allow-Origin" := origin,
        "Access-Control-Allow-Credentials" := "true",
        "Access-Control-Allow-Methods" := AllowMethods,
        "Access-Control-Allow-Headers" := AllowHeaders,
        "Access-Control-Max-Age" := MaxAge]
  }

  /** The allow-list scan: stops at the first entry equal to the origin. */
  method OriginAllowed(origin: string, allowedOrigins: seq<string>) returns (allowed: bool)
    ensures allowed <==> origin in allowedOrigins
  {
    allowed := false;
    var i := 0;
    while i < |allowedOrigins|
      invariant 0 <= i <= |allowedOrigins|
      invariant !allowed
      invariant origin !in allowedOrigins[..i]
    {
      if origin == allowedOrigins[i] {
        allowed := true;
        break;
      }
      i := i + 1;
    }
    assert !allowed ==> allowedOrigins[..i] == allowedOrigins;
  }

  /** What the middleware leaves: the headers it set, and either its own 200 reply or a call to the next handler. */
  datatype Outcome = Preflight(headers: Header) | PassOn(headers: Header)

  /**
   * CORS for one request: `origin` is the Origin header ("" when absent). The CORS headers are
   * set exactly when the origin is allowed; OPTIONS is answered 200 and nothing else is stopped.
   */
  method Handle(origin: string, requestMethod: string, allowedOrigins: seq<string>) returns (out: Outcome)
    ensures origin in allowedOrigins ==> out.headers == CorsHeaders(origin)
    ensures origin !in allowedOrigins ==> out.headers == map[]
    ensures out.Preflight? <==> requestMethod == MethodOptions
  {
    var headers: Header := map[];
    var allowed := OriginAllowed(origin, allowedOrigins);
    if allowed {
      headers := CorsHeaders(origin);
    }
    if requestMethod == MethodOptions {
      return Preflight(headers);
    }
    return PassOn(headers);
  }

  /** The reply a preflight gets: status 200, the CORS headers if any, no body. */
  function PreflightResponse(out: Outcome): (resp: Response)
    requires out.Preflight?
    ensures resp.status == StatusOK && resp.headers == out.headers && resp.body == ""
  {
    Response(StatusOK, out.headers, "")
  }

  /**
   * A trailing comma in CORS_ORIGINS puts "" on the allow-list, so a request with no Origin
   * header at all receives the credentialed CORS headers, with an empty Access-Control-Allow-Origin.
   */
  method TrailingCommaAllowsMissingOrigin(listed: string, requestMethod: string) returns (out: Outcome)
    requires ',' !in listed
    ensures out.headers == CorsHeaders("")
    ensures out.headers["Access-Control-Allow-Origin"] == ""
  {
    var value := listed + ",";
    assert value == Text.Join([listed, ""], ',');
    Text.SplitJoin([listed, ""], ',');
    var allowedOrigins := Config.CorsOrigins(value);
    assert allowedOrigins[1] == Text.TrimSpace("") == "";
    out := Handle("", requestMethod, allowedOrigins);
  }
}
