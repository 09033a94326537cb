/**
 * `RequestBuilder.buildUrl`: the URL the Android transport requests.
 * The base URL and the path are concatenated; the parameters, in their
 * insertion order, follow as `name=value` pairs joined by `&`, both
 * form-urlencoded, after `?`, or after `&` when the path already holds a
 * query.
 *
 * The query parser below (the WHATWG URL Standard's
 * application/x-www-form-urlencoded parser, section 5.1) is the reference
 * the query is proved against.
 */
module UrlBuilding {
  import opened Http
  import opened FormEncoding

  function EncodePair(p: (string, string)): string {
    FormEncode(p.0) + "=" + FormEncode(p.1)
  }

  /** The encoded pairs, joined by `&`. */
  function Query(parameters: seq<(string, string)>): string {
    if parameters == [] then ""
    else if |parameters| == 1 then EncodePair(parameters[0])
    else EncodePair(parameters[0]) + "&" + Query(parameters[1..])
  }

  /**
   * `buildUrl`: empty exactly when there is no base URL; otherwise it starts
   * with base URL and path, and goes on past them exactly when there are
   * parameters.
   */
  function BuildUrl(rb: RequestBuilder): (url: string)
    ensures url == "" <==> rb.baseUrl.GetOr("") == ""
    ensures url != "" ==> rb.baseUrl.GetOr("") + rb.path.GetOr("") <= url
    ensures url != "" ==> (|url| == |rb.baseUrl.GetOr("") + rb.path.GetOr("")| <==> rb.parameters == [])
  {
    var baseUrl := rb.baseUrl.GetOr("");
    var path := rb.path.GetOr("");
    if baseUrl == "" then ""
    else if rb.parameters == [] then baseUrl + path
    else baseUrl + path + (if '?' in path then "&" else "?") + Query(rb.parameters)
  }

  // ---------------------------------------------------------------------
  // The reference parser
  // ---------------------------------------------------------------------

  /** The pieces of `s` between occurrences of `sep`. */
  function Split(s: string, sep: char): (pieces: seq<string>)
    ensures |pieces| >= 1
  {
    if s == [] then [""]
    else if s[0] == sep then [""] + Split(s[1..], sep)
    else
      var rest := Split(s[1..], sep);
      [[s[0]] + rest[0]] + rest[1..]
  }

  /** The text before the first `=` and the text after it (all of `s` and "" when there is none). */
  function SplitPair(s: string): (string, string) {
    if s == [] then ("", "")
    else if s[0] == '=' then ("", s[1..])
    else
      var (name, value) := SplitPair(s[1..]);
      ([s[0]] + name, value)
  }

  function ParsePairs(segments: seq<string>): Option<seq<(string, string)>> {
    if segments == [] then Some([])
    else if segments[0] == "" then ParsePairs(segments[1..])
    else
      var (name, value) := SplitPair(segments[0]);
      match (FormDecode(name), FormDecode(value), ParsePairs(segments[1..]))
      case (Some(n), Some(v), Some(rest)) => Some([(n, v)] + rest)
      case _ => None
  }

  /** The name-value list a query string stands for. */
  function ParseQuery(query: string): Option<seq<(string, string)>> {
    ParsePairs(Split(query, '&'))
  }

  // ---------------------------------------------------------------------
  // Properties
  // ---------------------------------------------------------------------

  lemma {:induction false} SplitWithout(a: string, sep: char)
    requires sep !in a
    ensures Split(a, sep) == [a]
  {
    if a != [] {
      SplitWithout(a[1..], sep);
      assert [a[0]] + a[1..] == a;
    }
  }

  lemma {:induction false} SplitAfter(a: string, sep: char, b: string)
    requires sep !in a
    ensures Split(a + [sep] + b, sep) == [a] + Split(b, sep)
  {
    if a == [] {
      assert a + [sep] + b == [sep] + b;
      assert ([sep] + b)[1..] == b;
    } else {
      assert (a + [sep] + b)[1..] == a[1..] + [sep] + b;
      SplitAfter(a[1..], sep, b);
      assert [a[0]] + a[1..] == a;
    }
  }

  lemma {:induction false} SplitPairAt(a: string, b: string)
    requires '=' !in a
    ensures SplitPair(a + "=" + b) == (a, b)
  {
    if a == [] {
      assert a + "=" + b == "=" + b;
      assert ("=" + b)[1..] == b;
    } else {
      assert (a + "=" + b)[1..] == a[1..] + "=" + b;
      SplitPairAt(a[1..], b);
      assert [a[0]] + a[1..] == a;
    }
  }

  lemma ParseEncodedPair(p: (string, string))
    ensures Split(EncodePair(p), '&') == [EncodePair(p)]
    ensures EncodePair(p) != ""
    ensures SplitPair(EncodePair(p)) == (FormEncode(p.0), FormEncode(p.1))
  {
    FormEncodeSafe(p.0);
    FormEncodeSafe(p.1);
    assert '&' !in EncodePair(p);
    SplitWithout(EncodePair(p), '&');
    SplitPairAt(FormEncode(p.0), FormEncode(p.1));
  }

  /** The query splits into one segment per parameter. */
  lemma {:induction false} SplitQuery(parameters: seq<(string, string)>)
    requires parameters != []
    ensures Split(Query(parameters), '&') == seq(|parameters|, i requires 0 <= i < |parameters| => EncodePair(parameters[i]))
  {
    ParseEncodedPair(parameters[0]);
    if |parameters| > 1 {
      FormEncodeSafe(parameters[0].0);
      FormEncodeSafe(parameters[0].1);
      SplitAfter(EncodePair(parameters[0]), '&', Query(parameters[1..]));
      SplitQuery(parameters[1..]);
    }
  }

  lemma {:induction false} ParseEncodedPairs(parameters: seq<(string, string)>)
    ensures ParsePairs(seq(|parameters|, i requires 0 <= i < |parameters| => EncodePair(parameters[i]))) == Some(parameters)
  {
    var segments := seq(|parameters|, i requires 0 <= i < |parameters| => EncodePair(parameters[i]));
    if parameters != [] {
      var p := parameters[0];
      ParseEncodedPair(p);
      FormRoundTrip(p.0);
      FormRoundTrip(p.1);
      assert segments[1..] == seq(|parameters[1..]|, i requires 0 <= i < |parameters[1..]| => EncodePair(parameters[1..][i]));
      ParseEncodedPairs(parameters[1..]);
      assert [p] + parameters[1..] == parameters;
    }
  }

  /** Parsing the query gives back every parameter, in insertion order. */
  lemma QueryRoundTrip(parameters: seq<(string, string)>)
    ensures ParseQuery(Query(parameters)) == Some(parameters)
  {
    if parameters != [] {
      SplitQuery(parameters);
      ParseEncodedPairs(parameters);
    }
  }

  /** With no base URL the result is empty, whatever the path and the parameters. */
  lemma EmptyBaseUrl(rb: RequestBuilder)
    requires rb.baseUrl.GetOr("") == ""
    ensures BuildUrl(rb) == ""
  {
  }

  /** Without parameters the result is exactly base URL and path: no `?` is added. */
  lemma NoParameters(rb: RequestBuilder)
    requires rb.baseUrl.GetOr("") != "" && rb.parameters == []
    ensures BuildUrl(rb) == rb.baseUrl.GetOr("") + rb.path.GetOr("")
  {
  }

  /**
   * With parameters, the result is base URL and path, `?` (or `&` when the
   * path already holds a `?`), and a query that parses back to the parameters.
   */
  lemma WithParameters(rb: RequestBuilder)
    requires rb.baseUrl.GetOr("") != "" && rb.parameters != []
    ensures var path := rb.path.GetOr("");
      exists query: string {:trigger ParseQuery(query)} ::
        && BuildUrl(rb) == rb.baseUrl.GetOr("") + path + (if '?' in path then "&" else "?") + query
        && ParseQuery(query) == Some(rb.parameters)
  {
    var query := Query(rb.parameters);
    QueryRoundTrip(rb.parameters);
    assert ParseQuery(query) == Some(rb.parameters);
  }

  // ---------------------------------------------------------------------
  // The cases RequestBuilderTest fixes
  // ---------------------------------------------------------------------

  const BaseUrl := "https://www.url.com"
  const Path := "/api"

  lemma TestBuildUrl()
    ensures BuildUrl(DefaultRequestBuilder.(baseUrl := Some(BaseUrl), path := Some(Path))) == "https://www.url.com/api"
  {
  }

  lemma GivenEmptyPathReturnsBaseUrl()
    ensures BuildUrl(DefaultRequestBuilder.(baseUrl := Some(BaseUrl))) == BaseUrl
  {
  }

  lemma GivenEmptyBaseUrlAndPathReturnsEmptyString()
    ensures BuildUrl(DefaultRequestBuilder) == ""
  {
  }

  /** The JSON text and its expected encoding are bound to `json` and `encodedJson`. */
  lemma GivenParametersReturnsUrlWithEncodedParameters(json: string, encodedJson: string)
    requires json == "{\"data\": [\"value1\",\"value2\",\"value3\"]}"
    requires encodedJson == "%7B%22data%22%3A+%5B%22value1%22%2C%22value2%22%2C%22value3%22%5D%7D"
    ensures BuildUrl(DefaultRequestBuilder.(baseUrl := Some(BaseUrl), path := Some(Path), parameters := [
              ("param", "value1"),
              ("paramWithSpace", "value ABC"),
              ("jsonParam", json)]))
            == "https://www.url.com/api?param=value1&paramWithSpace=value+ABC&jsonParam=" + encodedJson
  {
    PathHasNoQuery();
    FirstParameter();
    SecondParameter();
    ThirdParameter(json, encodedJson);
    BuildUrlOfThree(BaseUrl, Path, ("param", "value1"), ("paramWithSpace", "value ABC"), ("jsonParam", json),
                    "param=value1", "paramWithSpace=value+ABC", "jsonParam=" + encodedJson);
    ExpectedUrlPieces(encodedJson);
  }

  lemma GivenPathWithQueryAppendsParameters()
    ensures BuildUrl(DefaultRequestBuilder.(baseUrl := Some(BaseUrl), path := Some(Path + "?foo=bar"),
                                            parameters := [("param", "value 1")]))
            == "https://www.url.com/api?foo=bar&param=value+1"
  {
    var rb := DefaultRequestBuilder.(baseUrl := Some(BaseUrl), path := Some(Path + "?foo=bar"),
                                     parameters := [("param", "value 1")]);
    PathWithQueryPieces();
    EncodeSpacedPair(rb.parameters[0].0, rb.parameters[0].1, "value", "1", "param=value+1");
    BuildUrlAfterQuery(rb, "param=value+1");
  }

  // ---------------------------------------------------------------------
  // Helpers for the test lemmas above. They put literal strings together
  // and encode the JSON parameter one piece at a time; they model no
  // behaviour of buildUrl beyond the lemmas they serve. (`AppendAssoc`
  // is also used by the iOS log writers.)
  // ---------------------------------------------------------------------

  lemma AppendAssoc(a: string, b: string, c: string)
    ensures a + (b + c) == a + b + c
  {
  }

  lemma EncodeBracketed(l: char, x: string, r: char, el: string, ex: string, er: string)
    requires l as int < 0x80 && l != ' ' && !IsUnreservedByte(l as int)
    requires r as int < 0x80 && r != ' ' && !IsUnreservedByte(r as int)
    requires el == ['%', HexDigit(l as int / 16), HexDigit(l as int % 16)]
    requires er == ['%', HexDigit(r as int / 16), HexDigit(r as int % 16)]
    requires FormEncode(x) == ex
    ensures FormEncode([l] + x + [r]) == el + ex + er
  {
    FormEncodeEscaped(l, el);
    FormEncodeEscaped(r, er);
    FormEncodeJoin3([l], x, [r], el, ex, er);
  }

  lemma EncodeQuoted(a: string)
    requires AllUnreserved(a)
    ensures FormEncode("\"" + a + "\"") == "%22" + a + "%22"
  {
    FormEncodeUnreserved(a);
    EncodeBracketed('"', a, '"', "%22", a, "%22");
  }

  lemma EncodeComma(x: string, y: string, ex: string, ey: string)
    requires FormEncode(x) == ex && FormEncode(y) == ey
    ensures FormEncode(x + "," + y) == ex + "%2C" + ey
  {
    FormEncodeEscaped(',', "%2C");
    FormEncodeJoin3(x, ",", y, ex, "%2C", ey);
  }

  lemma EncodeColonSpace(x: string, y: string, ex: string, ey: string)
    requires FormEncode(x) == ex && FormEncode(y) == ey
    ensures FormEncode(x + ": " + y) == ex + "%3A+" + ey
  {
    FormEncodeEscaped(':', "%3A");
    FormEncodeChar(' ');
    FormEncodeAppend(":", " ");
    assert ":" + " " == ": ";
    FormEncodeJoin3(x, ": ", y, ex, "%3A+", ey);
  }

  lemma EncodeJsonObjectNested(d: string, a: string, b: string, c: string)
    requires AllUnreserved(d) && AllUnreserved(a) && AllUnreserved(b) && AllUnreserved(c)
    ensures FormEncode("{" + (("\"" + d + "\"") + ": " + ("[" + (("\"" + a + "\"") + "," + ("\"" + b + "\"") + "," + ("\"" + c + "\"")) + "]")) + "}") == "%7B" + (("%22" + d + "%22") + "%3A+" + ("%5B" + (("%22" + a + "%22") + "%2C" + ("%22" + b + "%22") + "%2C" + ("%22" + c + "%22")) + "%5D")) + "%7D"
  {
    var qd, qa, qb, qc := "\"" + d + "\"", "\"" + a + "\"", "\"" + b + "\"", "\"" + c + "\"";
    var ed, ea, eb, ec := "%22" + d + "%22", "%22" + a + "%22", "%22" + b + "%22", "%22" + c + "%22";
    EncodeQuoted(d);
    EncodeQuoted(a);
    EncodeQuoted(b);
    EncodeQuoted(c);
    EncodeComma(qa, qb, ea, eb);
    EncodeComma(qa + "," + qb, qc, ea + "%2C" + eb, ec);
    var items, encodedItems := qa + "," + qb + "," + qc, ea + "%2C" + eb + "%2C" + ec;
    EncodeBracketed('[', items, ']', "%5B", encodedItems, "%5D");
    EncodeColonSpace(qd, "[" + items + "]", ed, "%5B" + encodedItems + "%5D");
    EncodeBracketed('{', qd + ": " + ("[" + items + "]"), '}', "%7B", ed + "%3A+" + ("%5B" + encodedItems + "%5D"), "%7D");
  }

  lemma JsonObjectFlat(d: string, a: string, b: string, c: string)
    ensures "{" + "\"" + d + "\"" + ": " + "[" + "\"" + a + "\"" + "," + "\"" + b + "\"" + "," + "\"" + c + "\"" + "]" + "}"
         == "{" + (("\"" + d + "\"") + ": " + ("[" + (("\"" + a + "\"") + "," + ("\"" + b + "\"") + "," + ("\"" + c + "\"")) + "]")) + "}"
  {
  }

  lemma EncodedJsonObjectFlat(d: string, a: string, b: string, c: string)
    ensures "%7B" + "%22" + d + "%22" + "%3A+" + "%5B" + "%22" + a + "%22" + "%2C" + "%22" + b + "%22" + "%2C" + "%22" + c + "%22" + "%5D" + "%7D"
         == "%7B" + (("%22" + d + "%22") + "%3A+" + ("%5B" + (("%22" + a + "%22") + "%2C" + ("%22" + b + "%22") + "%2C" + ("%22" + c + "%22")) + "%5D")) + "%7D"
  {
  }

  /** `{"d": ["a","b","c"]}`, with unreserved words d, a, b and c, encodes piece by piece. */
  lemma EncodeJsonObject(d: string, a: string, b: string, c: string)
    requires AllUnreserved(d) && AllUnreserved(a) && AllUnreserved(b) && AllUnreserved(c)
    ensures FormEncode("{" + "\"" + d + "\"" + ": " + "[" + "\"" + a + "\"" + "," + "\"" + b + "\"" + "," + "\"" + c + "\"" + "]" + "}")
         == "%7B" + "%22" + d + "%22" + "%3A+" + "%5B" + "%22" + a + "%22" + "%2C" + "%22" + b + "%22" + "%2C" + "%22" + c + "%22" + "%5D" + "%7D"
  {
    EncodeJsonObjectNested(d, a, b, c);
    JsonObjectFlat(d, a, b, c);
    EncodedJsonObjectFlat(d, a, b, c);
  }

  lemma JsonPieces(v: string)
    requires v == "{\"data\": [\"value1\",\"value2\",\"value3\"]}"
    ensures v == "{" + "\"" + "data" + "\"" + ": " + "[" + "\"" + "value1" + "\"" + "," + "\"" + "value2" + "\"" + "," + "\"" + "value3" + "\"" + "]" + "}"
  {
    assert "{" + "\"" == "{\"";
    assert "{\"" + "data" == "{\"data";
    assert "{\"data" + "\"" == "{\"data\"";
    assert "{\"data\"" + ": " == "{\"data\": ";
    assert "{\"data\": " + "[" == "{\"data\": [";
    assert "{\"data\": [" + "\"" == "{\"data\": [\"";
    assert "{\"data\": [\"" + "value1" == "{\"data\": [\"value1";
    assert "{\"data\": [\"value1" + "\"" == "{\"data\": [\"value1\"";
    assert "{\"data\": [\"value1\"" + "," == "{\"data\": [\"value1\",";
    assert "{\"data\": [\"value1\"," + "\"" == "{\"data\": [\"value1\",\"";
    assert "{\"data\": [\"value1\",\"" + "value2" == "{\"data\": [\"value1\",\"value2";
    assert "{\"data\": [\"value1\",\"value2" + "\"" == "{\"data\": [\"value1\",\"value2\"";
    assert "{\"data\": [\"value1\",\"value2\"" + "," == "{\"data\": [\"value1\",\"value2\",";
    assert "{\"data\": [\"value1\",\"value2\"," + "\"" == "{\"data\": [\"value1\",\"value2\",\"";
    assert "{\"data\": [\"value1\",\"value2\",\"" + "value3" == "{\"data\": [\"value1\",\"value2\",\"value3";
    assert "{\"data\": [\"value1\",\"value2\",\"value3" + "\"" == "{\"data\": [\"value1\",\"value2\",\"value3\"";
    assert "{\"data\": [\"value1\",\"value2\",\"value3\"" + "]" == "{\"data\": [\"value1\",\"value2\",\"value3\"]";
    assert "{\"data\": [\"value1\",\"value2\",\"value3\"]" + "}" == "{\"data\": [\"value1\",\"value2\",\"value3\"]}";
  }

  lemma EncodedJsonPieces(w: string)
    requires w == "%7B%22data%22%3A+%5B%22value1%22%2C%22value2%22%2C%22value3%22%5D%7D"
    ensures w == "%7B" + "%22" + "data" + "%22" + "%3A+" + "%5B" + "%22" + "value1" + "%22" + "%2C" + "%22" + "value2" + "%22" + "%2C" + "%22" + "value3" + "%22" + "%5D" + "%7D"
  {
    assert "%7B" + "%22" == "%7B%22";
    assert "%7B%22" + "data" == "%7B%22data";
    assert "%7B%22data" + "%22" == "%7B%22data%22";
    assert "%7B%22data%22" + "%3A+" == "%7B%22data%22%3A+";
    assert "%7B%22data%22%3A+" + "%5B" == "%7B%22data%22%3A+%5B";
    assert "%7B%22data%22%3A+%5B" + "%22" == "%7B%22data%22%3A+%5B%22";
    assert "%7B%22data%22%3A+%5B%22" + "value1" == "%7B%22data%22%3A+%5B%22value1";
    assert "%7B%22data%22%3A+%5B%22value1" + "%22" == "%7B%22data%22%3A+%5B%22value1%22";
    assert "%7B%22data%22%3A+%5B%22value1%22" + "%2C" == "%7B%22data%22%3A+%5B%22value1%22%2C";
    assert "%7B%22data%22%3A+%5B%22value1%22%2C" + "%22" == "%7B%22data%22%3A+%5B%22value1%22%2C%22";
    assert "%7B%22data%22%3A+%5B%22value1%22%2C%22" + "value2" == "%7B%22data%22%3A+%5B%22value1%22%2C%22value2";
    assert "%7B%22data%22%3A+%5B%22value1%22%2C%22value2" + "%22" == "%7B%22data%22%3A+%5B%22value1%22%2C%22value2%22";
    assert "%7B%22data%22%3A+%5B%22value1%22%2C%22value2%22" + "%2C" == "%7B%22data%22%3A+%5B%22value1%22%2C%22value2%22%2C";
    assert "%7B%22data%22%3A+%5B%22value1%22%2C%22value2%22%2C" + "%22" == "%7B%22data%22%3A+%5B%22value1%22%2C%22value2%22%2C%22";
    assert "%7B%22data%22%3A+%5B%22value1%22%2C%22value2%22%2C%22" + "value3" == "%7B%22data%22%3A+%5B%22value1%22%2C%22value2%22%2C%22value3";
    assert "%7B%22data%22%3A+%5B%22value1%22%2C%22value2%22%2C%22value3" + "%22" == "%7B%22data%22%3A+%5B%22value1%22%2C%22value2%22%2C%22value3%22";
    assert "%7B%22data%22%3A+%5B%22value1%22%2C%22value2%22%2C%22value3%22" + "%5D" == "%7B%22data%22%3A+%5B%22value1%22%2C%22value2%22%2C%22value3%22%5D";
    assert "%7B%22data%22%3A+%5B%22value1%22%2C%22value2%22%2C%22value3%22%5D" + "%7D" == "%7B%22data%22%3A+%5B%22value1%22%2C%22value2%22%2C%22value3%22%5D%7D";
  }

  lemma EncodeJsonValue(v: string, w: string)
    requires v == "{\"data\": [\"value1\",\"value2\",\"value3\"]}" && w == "%7B%22data%22%3A+%5B%22value1%22%2C%22value2%22%2C%22value3%22%5D%7D"
    ensures FormEncode(v) == w
  {
    JsonPieces(v);
    EncodedJsonPieces(w);
    EncodeJsonObject("data", "value1", "value2", "value3");
  }

  lemma EncodeTestJson(k: string, v: string, w: string)
    requires k == "jsonParam" && v == "{\"data\": [\"value1\",\"value2\",\"value3\"]}" && w == "%7B%22data%22%3A+%5B%22value1%22%2C%22value2%22%2C%22value3%22%5D%7D"
    ensures FormEncode(k) + "=" + FormEncode(v) == "jsonParam=" + w
  {
    FormEncodeUnreserved(k);
    EncodeJsonValue(v, w);
  }

  lemma EncodePlainPair(k: string, v: string)
    requires k == "param" && v == "value1"
    ensures FormEncode(k) + "=" + FormEncode(v) == "param=value1"
  {
    FormEncodeUnreserved(k);
    FormEncodeUnreserved(v);
  }

  lemma EncodeSpacedPair(k: string, v: string, a: string, b: string, e: string)
    requires AllUnreserved(k) && AllUnreserved(a) && AllUnreserved(b) && v == a + " " + b
    requires e == k + "=" + (a + "+" + b)
    ensures FormEncode(k) + "=" + FormEncode(v) == e
  {
    FormEncodeUnreserved(k);
    FormEncodeSpaced(v, a, b);
  }

  lemma FirstParameter()
    ensures EncodePair(("param", "value1")) == "param=value1"
  {
    EncodePlainPair("param", "value1");
  }

  lemma SecondParameter()
    ensures EncodePair(("paramWithSpace", "value ABC")) == "paramWithSpace=value+ABC"
  {
    EncodeSpacedPair("paramWithSpace", "value ABC", "value", "ABC", "paramWithSpace=value+ABC");
  }

  lemma ThirdParameter(json: string, encodedJson: string)
    requires json == "{\"data\": [\"value1\",\"value2\",\"value3\"]}" && encodedJson == "%7B%22data%22%3A+%5B%22value1%22%2C%22value2%22%2C%22value3%22%5D%7D"
    ensures EncodePair(("jsonParam", json)) == "jsonParam=" + encodedJson
  {
    EncodeTestJson("jsonParam", json, encodedJson);
  }

  lemma QueryOfThree(p: (string, string), q: (string, string), r: (string, string))
    ensures Query([p, q, r]) == EncodePair(p) + "&" + (EncodePair(q) + "&" + EncodePair(r))
  {
    assert [p, q, r][1..] == [q, r];
    assert [q, r][1..] == [r];
    assert Query([r]) == EncodePair(r);
    assert Query([q, r]) == EncodePair(q) + "&" + EncodePair(r);
  }

  lemma BuildUrlOfThree(base: string, path: string, p1: (string, string), p2: (string, string), p3: (string, string),
                         e1: string, e2: string, e3: string)
    requires base != "" && '?' !in path
    requires EncodePair(p1) == e1 && EncodePair(p2) == e2 && EncodePair(p3) == e3
    ensures BuildUrl(DefaultRequestBuilder.(baseUrl := Some(base), path := Some(path), parameters := [p1, p2, p3]))
            == base + path + "?" + (e1 + "&" + (e2 + "&" + e3))
  {
    QueryOfThree(p1, p2, p3);
  }

  lemma PathHasNoQuery()
    ensures '?' !in Path
  {
  }

  // Each literal join is proved on its own.

  lemma UrlPrefix1()
    ensures "https://www.url.com" + "/api" + "?" == "https://www.url.com/api?"
  {
  }

  lemma UrlPrefix2()
    ensures "https://www.url.com/api?" + ("param=value1" + "&") == "https://www.url.com/api?param=value1&"
  {
  }

  lemma UrlPrefix3()
    ensures "https://www.url.com/api?param=value1&" + ("paramWithSpace=value+ABC" + "&") == "https://www.url.com/api?param=value1&paramWithSpace=value+ABC&"
  {
  }

  lemma UrlPrefix4()
    ensures "https://www.url.com/api?param=value1&paramWithSpace=value+ABC&" + "jsonParam=" == "https://www.url.com/api?param=value1&paramWithSpace=value+ABC&jsonParam="
  {
  }

  lemma ExpectedUrlPieces(encodedJson: string)
    ensures "https://www.url.com" + "/api" + "?" + ("param=value1" + "&" + ("paramWithSpace=value+ABC" + "&" + ("jsonParam=" + encodedJson)))
         == "https://www.url.com/api?param=value1&paramWithSpace=value+ABC&jsonParam=" + encodedJson
  {
    UrlPrefix1();
    AppendAssoc("https://www.url.com/api?", "param=value1" + "&", "paramWithSpace=value+ABC" + "&" + ("jsonParam=" + encodedJson));
    UrlPrefix2();
    AppendAssoc("https://www.url.com/api?param=value1&", "paramWithSpace=value+ABC" + "&", "jsonParam=" + encodedJson);
    UrlPrefix3();
    AppendAssoc("https://www.url.com/api?param=value1&paramWithSpace=value+ABC&", "jsonParam=", encodedJson);
    UrlPrefix4();
  }

  lemma BuildUrlAfterQuery(rb: RequestBuilder, e: string)
    requires rb.baseUrl.GetOr("") != "" && '?' in rb.path.GetOr("") && |rb.parameters| == 1
    requires EncodePair(rb.parameters[0]) == e
    ensures BuildUrl(rb) == rb.baseUrl.GetOr("") + rb.path.GetOr("") + "&" + e
  {
  }

  lemma PathWithQueryPieces()
    ensures '?' in Path + "?foo=bar"
    ensures "https://www.url.com" + (Path + "?foo=bar") + "&" + "param=value+1" == "https://www.url.com/api?foo=bar&param=value+1"
  {
    assert (Path + "?foo=bar")[4] == '?';
    assert Path + "?foo=bar" == "/api?foo=bar";
    assert "https://www.url.com" + "/api?foo=bar" == "https://www.url.com/api?foo=bar";
    assert "https://www.url.com/api?foo=bar" + "&" == "https://www.url.com/api?foo=bar&";
  }
}
