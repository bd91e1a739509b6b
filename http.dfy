/** The slice of net/http the handlers and middleware use: query lookup and the response they write. */
module Http {
  import UrlQuery

  /** A parsed URL query: every value given for each key, in order. */
  type Query = map<string, seq<string>>

  /** url.Values.Get: the first value for the key, or "" when there is none. */
  function QueryGet(q: Query, key: string): (v: string)
    ensures key in q && |q[key]| > 0 ==> v == q[key][0]
    ensures key !in q || |q[key]| == 0 ==> v == ""
  {
    if key in q && |q[key]| > 0 then q[key][0] else ""
  }

  const StatusOK := 200
  const StatusFound := 302
  const StatusBadRequest := 400
  const StatusUnauthorized := 401
  const StatusInternalServerError := 500

  type Header = map<string, string>

  /** What a handler leaves in the ResponseWriter: status, headers set, body written. */
  datatype Response = Response(status: int, headers: Header, body: string)

  /** WriteHeader(status) followed by Write(body); no header is set by the handler. */
  function Reply(status: int, body: string): (resp: Response)
    ensures resp.status == status && resp.body == body && resp.headers == map[]
  {
    Response(status, map[], body)
  }

  const MethodGet := "GET"
  const MethodHead := "HEAD"
  const HtmlContentType := "text/html; charset=utf-8"

  predicate IsASCII(s: string)
  {
    forall i :: 0 <= i < |s| ==> s[i] < '\U{80}'
  }

  const LowerHex := "0123456789abcdef"

  /** The bytes of one character as http.Redirect escapes them: '%' and strconv's lower-case base-16 digits. */
  function HexBytes(bytes: seq<int>): (r: string)
    requires forall i :: 0 <= i < |bytes| ==> 0x80 <= bytes[i] < 256
    ensures |r| == 3 * |bytes|
    ensures IsASCII(r)
  {
    if |bytes| == 0 then ""
    else ['%', LowerHex[bytes[0] / 16], LowerHex[bytes[0] % 16]] + HexBytes(bytes[1..])
  }

  /**
   * hexEscapeNonASCII: every byte of the UTF-8 encoding at or above 0x80 becomes '%' and its
   * hexadecimal value; ASCII characters are kept.
   */
  function HexEscapeNonASCII(s: string): (r: string)
    ensures IsASCII(r)
    ensures IsASCII(s) ==> r == s
    ensures |r| >= |s|
  {
    if |s| == 0 then ""
    else
      var head := if s[0] < '\U{80}' then [s[0]] else HexBytes(UrlQuery.Utf8(s[0]));
      assert IsASCII(s) ==> IsASCII(s[1..]);
      head + HexEscapeNonASCII(s[1..])
  }

  /** The escaping works character by character, so it distributes over concatenation. */
  lemma {:induction false} HexEscapeConcat(a: string, b: string)
    ensures HexEscapeNonASCII(a + b) == HexEscapeNonASCII(a) + HexEscapeNonASCII(b)
  {
    if |a| > 0 {
      assert (a + b)[1..] == a[1..] + b;
      HexEscapeConcat(a[1..], b);
    } else {
      assert a + b == b;
    }
  }

  /** htmlEscape: the five characters special to HTML become character references. */
  function HtmlEscape(s: string): (r: string)
    ensures forall i :: 0 <= i < |r| ==> r[i] != '<' && r[i] != '>' && r[i] != '"' && r[i] != '\''
    ensures (forall i :: 0 <= i < |s| ==> s[i] !in "&<>\"'") ==> r == s
  {
    if |s| == 0 then ""
    else
      var head :=
        match s[0]
        case '&' => "&amp;"
        case '<' => "&lt;"
        case '>' => "&gt;"
        case '"' => "&#34;"
        case '\'' => "&#39;"
        case c => [c];
      head + HtmlEscape(s[1..])
  }

  /**
   * http.Redirect(w, r, url, 302) for an absolute URL, with no Content-Type set before it: the
   * Location is the URL with its non-ASCII bytes escaped; a GET or HEAD request also gets an HTML
   * Content-Type, and a GET the short HTML body linking to the URL.
   */
  function Redirect(requestMethod: string, url: string): (resp: Response)
    ensures resp.status == StatusFound
    ensures "Location" in resp.headers && resp.headers["Location"] == HexEscapeNonASCII(url)
    ensures IsASCII(url) ==> resp.headers["Location"] == url
    ensures resp.headers.Keys <= {"Location", "Content-Type"}
    ensures "Content-Type" in resp.headers <==> requestMethod == MethodGet || requestMethod == MethodHead
    ensures "Content-Type" in resp.headers ==> resp.headers["Content-Type"] == HtmlContentType
    ensures resp.body != "" <==> requestMethod == MethodGet
    ensures requestMethod == MethodGet ==> "<a href=\"" + HtmlEscape(url) + "\">" <= resp.body
  {
    var location := map["Location" := HexEscapeNonASCII(url)];
    var headers := if requestMethod == MethodGet || requestMethod == MethodHead
      then location["Content-Type" := HtmlContentType] else location;
    var body := if requestMethod == MethodGet
      then "<a href=\"" + HtmlEscape(url) + "\">Found</a>.\n" + "\n" else "";
    Response(StatusFound, headers, body)
  }
}
