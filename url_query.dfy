/**
 * The parts of Go's net/url that build the provider's authorization URL: QueryEscape,
 * Values.Encode (one value per key, keys in sorted order) and URL.String for an absolute URL.
 */
module UrlQuery {
  import opened Text

  /** The characters QueryEscape leaves alone (the unreserved set of section 2.3 of RFC 3986). */
  predicate Unreserved(c: char)
  {
    ('a' <= c <= 'z') || ('A' <= c <= 'Z') || ('0' <= c <= '9') || c == '-' || c == '_' || c == '.' || c == '~'
  }

  /** The characters an escaped query component is made of. */
  predicate EscapedChar(c: char)
  {
    Unreserved(c) || c == '+' || c == '%' || ('A' <= c <= 'F')
  }

  /** The UTF-8 encoding of a Unicode scalar value: Go escapes strings byte by byte. */
  function Utf8(c: char): (bytes: seq<int>)
    ensures 1 <= |bytes| <= 4
    ensures forall i :: 0 <= i < |bytes| ==> 0 <= bytes[i] < 256
    ensures c as int < 0x80 <==> |bytes| == 1
  {
    var n := c as int;
    if n < 0x80 then [n]
    else if n < 0x800 then [0xC0 + n / 0x40, 0x80 + n % 0x40]
    else if n < 0x1_0000 then [0xE0 + n / 0x1000, 0x80 + (n / 0x40) % 0x40, 0x80 + n % 0x40]
    else [0xF0 + n / 0x4_0000, 0x80 + (n / 0x1000) % 0x40, 0x80 + (n / 0x40) % 0x40, 0x80 + n % 0x40]
  }

  const UpperHex := "0123456789ABCDEF"

  /** Each byte as '%' followed by two upper-case hexadecimal digits. */
  function PercentEncode(bytes: seq<int>): (r: string)
    requires forall i :: 0 <= i < |bytes| ==> 0 <= bytes[i] < 256
    ensures |r| == 3 * |bytes|
    ensures forall i :: 0 <= i < |r| ==> r[i] == '%' || ('0' <= r[i] <= '9') || ('A' <= r[i] <= 'F')
  {
    if |bytes| == 0 then ""
    else ['%', UpperHex[bytes[0] / 16], UpperHex[bytes[0] % 16]] + PercentEncode(bytes[1..])
  }

  /** How QueryEscape writes one character: unchanged, '+' for a space, or its bytes percent-encoded. */
  function EscapeChar(c: char): (r: string)
    ensures |r| >= 1
    ensures forall i :: 0 <= i < |r| ==> EscapedChar(r[i])
    ensures Unreserved(c) ==> r == [c]
  {
    if Unreserved(c) then [c] else if c == ' ' then "+" else PercentEncode(Utf8(c))
  }

  /**
   * url.QueryEscape. Every reserved character of a query component is escaped, so the result
   * never holds the '&' that separates pairs, the '=' inside a pair, a space, '#' or '?'.
   */
  function QueryEscape(s: string): (r: string)
    ensures forall i :: 0 <= i < |r| ==> EscapedChar(r[i])
    ensures |r| >= |s|
  {
    if |s| == 0 then "" else EscapeChar(s[0]) + QueryEscape(s[1..])
  }

  /** A string made only of unreserved characters is its own escape. */
  lemma {:induction false} QueryEscapeUnreserved(s: string)
    requires forall i :: 0 <= i < |s| ==> Unreserved(s[i])
    ensures QueryEscape(s) == s
  {
    if |s| > 0 {
      QueryEscapeUnreserved(s[1..]);
      assert [s[0]] + s[1..] == s;
    }
  }

  /** Strict lexicographic order on strings, the order in which Values.Encode emits keys. */
  predicate LexLess(a: string, b: string)
  {
    |b| > 0 && (|a| == 0 || a[0] < b[0] || (a[0] == b[0] && LexLess(a[1..], b[1..])))
  }

  /** Keys strictly increasing: a url.Values map with one value per key, listed in Encode's order. */
  predicate SortedKeys(pairs: seq<(string, string)>)
  {
    forall i :: 0 <= i < |pairs| - 1 ==> LexLess(pairs[i].0, pairs[i + 1].0)
  }

  /** The escaped "key=value" fields Encode writes, one per pair. */
  function Fields(pairs: seq<(string, string)>): (fields: seq<string>)
    ensures |fields| == |pairs|
  {
    seq(|pairs|, i requires 0 <= i < |pairs| => QueryEscape(pairs[i].0) + "=" + QueryEscape(pairs[i].1))
  }

  /** url.Values.Encode: the fields joined by '&', or "" for no pairs. */
  function Encode(pairs: seq<(string, string)>): (r: string)
    requires SortedKeys(pairs)
    ensures r == "" <==> |pairs| == 0
    ensures |pairs| > 0 ==> QueryEscape(pairs[0].0) + "=" + QueryEscape(pairs[0].1) <= r
  {
    if |pairs| == 0 then "" else Join(Fields(pairs), '&')
  }

  /** No escaped component holds a character outside the escaped alphabet, such as '&' or '='. */
  lemma {:induction false} EscapedAvoids(s: string, c: char)
    requires !EscapedChar(c)
    ensures c !in QueryEscape(s)
  {
    var r := QueryEscape(s);
    assert forall j :: 0 <= j < |r| ==> r[j] != c;
  }

  /** One field splits on '=' into its escaped key and escaped value, and holds no '&'. */
  lemma {:induction false} FieldParsesBack(key: string, value: string)
    ensures '&' !in QueryEscape(key) + "=" + QueryEscape(value)
    ensures Split(QueryEscape(key) + "=" + QueryEscape(value), '=') == [QueryEscape(key), QueryEscape(value)]
  {
    var k, v := QueryEscape(key), QueryEscape(value);
    EscapedAvoids(key, '&');
    EscapedAvoids(key, '=');
    EscapedAvoids(value, '&');
    EscapedAvoids(value, '=');
    assert [k, v][1..] == [v];
    assert k + "=" + v == Join([k, v], '=');
    SplitJoin([k, v], '=');
  }

  /**
   * Encode can be read back: splitting on '&' recovers one field per pair in order, and
   * splitting a field on '=' recovers its escaped key and escaped value.
   */
  lemma {:induction false} EncodeParsesBack(pairs: seq<(string, string)>)
    requires SortedKeys(pairs) && |pairs| >= 1
    ensures Split(Encode(pairs), '&') == Fields(pairs)
    ensures forall i :: 0 <= i < |pairs| ==>
      Split(Fields(pairs)[i], '=') == [QueryEscape(pairs[i].0), QueryEscape(pairs[i].1)]
  {
    var fields := Fields(pairs);
    forall i | 0 <= i < |pairs|
      ensures '&' !in fields[i]
      ensures Split(fields[i], '=') == [QueryEscape(pairs[i].0), QueryEscape(pairs[i].1)]
    {
      FieldParsesBack(pairs[i].0, pairs[i].1);
    }
    SplitJoin(fields, '&');
  }

  /** URL.String for an absolute URL whose host and path need no escaping. */
  function AbsoluteURL(scheme: string, host: string, path: string, rawQuery: string): (r: string)
    ensures scheme + "://" + host + path <= r
    ensures rawQuery == "" ==> r == scheme + "://" + host + path
    ensures rawQuery != "" ==> |r| > |rawQuery| && r[|r| - |rawQuery| - 1..] == "?" + rawQuery
  {
    scheme + "://" + host + path + (if rawQuery != "" then "?" + rawQuery else "")
  }
}
