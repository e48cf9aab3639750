/** The part of Foundation's `URL`, `URLComponents` and
    `addingPercentEncoding(withAllowedCharacters: .urlQueryAllowed)` that the
    x-callback-url codec relies on, written out after RFC 3986: the scheme
    syntax of section 3.1, the path and query characters of sections 3.3 and
    3.4, and the `%XY` escapes of section 2.1 for the ASCII octets only:
    an escape of an octet from `%80` to `%FF` is refused.

    A URL is held as the components the codec reads from it: the scheme, the
    host, the path as `URL.path` reports it (percent-decoded), and the query
    items as `URLComponents.queryItems` reports them (split at `&` and `=`,
    then percent-decoded). */
module Urls {
  import opened Wrappers
  import opened Text

  datatype QueryItem = QueryItem(name: string, value: Option<string>)

  datatype UrlParts = UrlParts(
    scheme: Option<string>,
    host: Option<string>,
    path: string,
    query: Option<seq<QueryItem>>)

  // ---------------------------------------------------------------------------
  // Character classes (RFC 3986, sections 2.2, 2.3 and 3.1)
  // ---------------------------------------------------------------------------

  predicate IsUnreserved(c: char) {
    IsAlpha(c) || IsDigit(c) || c == '-' || c == '.' || c == '_' || c == '~'
  }

  predicate IsSubDelim(c: char) {
    c == '!' || c == '$' || c == '&' || c == '\'' || c == '(' || c == ')'
    || c == '*' || c == '+' || c == ',' || c == ';' || c == '='
  }

  /** A path character other than the `%` that starts a percent-encoded octet. */
  predicate IsPChar(c: char) {
    IsUnreserved(c) || IsSubDelim(c) || c == ':' || c == '@'
  }

  /** Foundation's `CharacterSet.urlQueryAllowed`: what may stand unescaped in a query. */
  predicate IsQueryAllowed(c: char) {
    IsPChar(c) || c == '/' || c == '?'
  }

  predicate IsSchemeChar(c: char) {
    IsAlpha(c) || IsDigit(c) || c == '+' || c == '-' || c == '.'
  }

  /** `scheme = ALPHA *( ALPHA / DIGIT / "+" / "-" / "." )` */
  predicate ValidScheme(s: string) {
    |s| > 0 && IsAlpha(s[0]) && forall i :: 1 <= i < |s| ==> IsSchemeChar(s[i])
  }

  predicate ValidHost(s: string) {
    forall i :: 0 <= i < |s| ==> IsUnreserved(s[i]) || IsSubDelim(s[i]) || s[i] == ':' || s[i] == '@' || s[i] == '%'
  }

  predicate ValidPath(s: string) {
    forall i :: 0 <= i < |s| ==> IsPChar(s[i]) || s[i] == '/' || s[i] == '%'
  }

  predicate ValidQuery(s: string) {
    forall i :: 0 <= i < |s| ==> IsQueryAllowed(s[i]) || s[i] == '%'
  }

  /** Strings on which `.urlQueryAllowed` percent-encoding changes nothing. */
  predicate IsPlainText(s: string) {
    forall i :: 0 <= i < |s| ==> IsQueryAllowed(s[i])
  }

  // ---------------------------------------------------------------------------
  // Percent-encoding (RFC 3986, section 2.1)
  // ---------------------------------------------------------------------------

  predicate IsHexDigit(c: char) {
    IsDigit(c) || 'A' <= c <= 'F' || 'a' <= c <= 'f'
  }

  function HexValue(c: char): (v: nat)
    requires IsHexDigit(c)
    ensures v < 16
  {
    if IsDigit(c) then DigitValue(c)
    else if 'A' <= c <= 'F' then c as int - 'A' as int + 10
    else c as int - 'a' as int + 10
  }

  /** Upper-case hexadecimal digit, as Foundation writes them. */
  function HexChar(v: nat): (c: char)
    requires v < 16
    ensures IsHexDigit(c)
  {
    if v < 10 then DigitChar(v) else ('A' as int + v - 10) as char
  }

  lemma HexRoundTrip(v: nat)
    requires v < 16
    ensures HexValue(HexChar(v)) == v
  {
  }

  /** `addingPercentEncoding(withAllowedCharacters: .urlQueryAllowed)`: every
      character outside the allowed set becomes `%XY`. This model treats
      characters beyond ASCII as impossible to encode, so the encoding can
      fail as Foundation's returns `nil`. */
  function PercentEncode(s: string): (r: Option<string>)
    ensures r.Some? <==> forall i :: 0 <= i < |s| ==> s[i] as int < 128
    ensures r.Some? ==> |r.value| >= |s|
    decreases |s|
  {
    if s == "" then Some("")
    else
      var rest :- PercentEncode(s[1..]);
      var c := s[0];
      if IsQueryAllowed(c) then Some([c] + rest)
      else if c as int < 128 then Some(['%', HexChar(c as int / 16), HexChar(c as int % 16)] + rest)
      else None
  }

  /** Replaces every `%XY` by the character with code XY; a malformed escape,
      or one denoting a code beyond ASCII, makes the decoding fail. */
  function PercentDecode(s: string): (r: Option<string>)
    ensures r.Some? ==> |r.value| <= |s|
    decreases |s|
  {
    if s == "" then Some("")
    else if s[0] == '%' then
      if |s| >= 3 && IsHexDigit(s[1]) && IsHexDigit(s[2]) && HexValue(s[1]) < 8 then
        var rest :- PercentDecode(s[3..]);
        Some([(HexValue(s[1]) * 16 + HexValue(s[2])) as char] + rest)
      else None
    else
      var rest :- PercentDecode(s[1..]);
      Some([s[0]] + rest)
  }

  /** Encoding leaves a string alone exactly when every character is allowed. */
  lemma {:induction false} PercentEncodeIdentity(s: string)
    ensures PercentEncode(s) == Some(s) <==> IsPlainText(s)
    decreases |s|
  {
    if s != "" {
      PercentEncodeIdentity(s[1..]);
      var c := s[0];
      assert s == [c] + s[1..];
      if PercentEncode(s).Some? && !IsQueryAllowed(c) {
        assert |PercentEncode(s).value| >= |s| + 2;
      }
      if PercentEncode(s) == Some(s) {
        assert IsQueryAllowed(c);
        assert PercentEncode(s[1..]) == Some(s[1..]);
      }
    }
  }

  /** Decoding undoes encoding: the two are inverse on every encodable string. */
  lemma {:induction false} DecodeEncoded(s: string)
    requires PercentEncode(s).Some?
    ensures PercentDecode(PercentEncode(s).value) == Some(s)
    decreases |s|
  {
    if s != "" {
      DecodeEncoded(s[1..]);
      var rest := PercentEncode(s[1..]).value;
      var c := s[0];
      var t := PercentEncode(s).value;
      assert s == [c] + s[1..];
      if IsQueryAllowed(c) {
        assert t == [c] + rest;
        assert t[1..] == rest;
      } else {
        var hi, lo := c as int / 16, c as int % 16;
        assert t == ['%', HexChar(hi), HexChar(lo)] + rest;
        assert t[3..] == rest;
        HexRoundTrip(hi);
        HexRoundTrip(lo);
        assert (hi * 16 + lo) as char == c;
      }
    }
  }

  /** Two strings with the same encoding are the same string. */
  lemma PercentEncodeInjective(s: string, t: string)
    requires PercentEncode(s).Some? && PercentEncode(s) == PercentEncode(t)
    ensures s == t
  {
    DecodeEncoded(s);
    DecodeEncoded(t);
  }

  lemma PlainTextDecodes(s: string)
    requires IsPlainText(s)
    ensures PercentDecode(s) == Some(s)
  {
    PercentEncodeIdentity(s);
    DecodeEncoded(s);
  }

  // ---------------------------------------------------------------------------
  // Parsing a URL string (`URL(string:)` followed by `URLComponents`)
  // ---------------------------------------------------------------------------

  /** Index of the first character of `s` that is in `stops`, or `|s|`. */
  function FirstOf(s: string, stops: set<char>): (i: nat)
    ensures i <= |s|
    ensures forall j :: 0 <= j < i ==> s[j] !in stops
    ensures i < |s| ==> s[i] in stops
    decreases |s|
  {
    if s == "" then 0 else if s[0] in stops then 0 else 1 + FirstOf(s[1..], stops)
  }

  lemma FirstOfIs(s: string, stops: set<char>, k: nat)
    requires k <= |s|
    requires forall j :: 0 <= j < k ==> s[j] !in stops
    requires k < |s| ==> s[k] in stops
    ensures FirstOf(s, stops) == k
  {
  }

  /** The `&`-separated segments of a query string. */
  function Segments(q: string): (segs: seq<string>)
    ensures |segs| > 0
    decreases |q|
  {
    var e := FirstOf(q, {'&'});
    if e == |q| then [q] else [q[..e]] + Segments(q[e + 1..])
  }

  /** One `name[=value]` segment; without `=` the item has no value. */
  function ParseItem(segment: string): Option<QueryItem> {
    var e := FirstOf(segment, {'='});
    var name :- PercentDecode(segment[..e]);
    if e == |segment| then Some(QueryItem(name, None))
    else
      var value :- PercentDecode(segment[e + 1..]);
      Some(QueryItem(name, Some(value)))
  }

  function ParseItems(segments: seq<string>): (r: Option<seq<QueryItem>>)
    ensures r.Some? ==> |r.value| == |segments|
  {
    if segments == [] then Some([])
    else
      var item :- ParseItem(segments[0]);
      var rest :- ParseItems(segments[1..]);
      Some([item] + rest)
  }

  /** `URLComponents.queryItems` of a query string; the empty query has none. */
  function QueryItems(q: string): Option<seq<QueryItem>> {
    if q == "" then Some([]) else ParseItems(Segments(q))
  }

  /** `URL(string:)`: a URI or relative reference after RFC 3986, or `None`.
      A `:` before any `/` or `?` ends the scheme, which must then be valid;
      `//` starts the host, which runs to the next `/` or `?`; the path runs
      to the first `?` and the query is the rest. Fragments are not part of
      this model, so `#` is refused like any other character outside the
      URL syntax. */
  function ParseUrl(s: string): (r: Option<UrlParts>)
    ensures r.Some? && r.value.scheme.Some? ==>
      var scheme := r.value.scheme.value;
      ValidScheme(scheme) && |scheme| < |s| && s[..|scheme|] == scheme && s[|scheme|] == ':'
    ensures r.Some? && r.value.host.Some? ==> ValidHost(r.value.host.value)
  {
    var i := FirstOf(s, {':', '/', '?'});
    if i < |s| && s[i] == ':' then
      if ValidScheme(s[..i]) then ParseHierarchy(Some(s[..i]), s[i + 1..]) else None
    else ParseHierarchy(None, s)
  }

  function ParseHierarchy(scheme: Option<string>, rest: string): (r: Option<UrlParts>)
    ensures r.Some? ==> r.value.scheme == scheme
    ensures r.Some? && r.value.host.Some? ==> ValidHost(r.value.host.value)
  {
    var (host, after) := SplitHost(rest);
    if host.Some? && !ValidHost(host.value) then None else ParsePathQuery(scheme, host, after)
  }

  /** `//host` at the front of `rest` gives the host, up to the next `/` or `?`. */
  function SplitHost(rest: string): (Option<string>, string) {
    if |rest| >= 2 && rest[0] == '/' && rest[1] == '/' then
      var j := FirstOf(rest[2..], {'/', '?'});
      (Some(rest[2..][..j]), rest[2..][j..])
    else (None, rest)
  }

  /** The path runs to the first `?`; the query, if any, is what follows it. */
  function ParsePathQuery(scheme: Option<string>, host: Option<string>, after: string): (r: Option<UrlParts>)
    ensures r.Some? ==> r.value.scheme == scheme && r.value.host == host
  {
    var k := FirstOf(after, {'?'});
    if !ValidPath(after[..k]) then None
    else if k < |after| && !ValidQuery(after[k + 1..]) then None
    else
      var path :- PercentDecode(after[..k]);
      if k < |after| then
        var items :- QueryItems(after[k + 1..]);
        Some(UrlParts(scheme, host, path, Some(items)))
      else Some(UrlParts(scheme, host, path, None))
  }

  /** A valid scheme followed by `:` is split off and the rest parsed on its own. */
  lemma ParseAfterScheme(scheme: string, rest: string)
    requires ValidScheme(scheme)
    ensures ParseUrl(scheme + ":" + rest) == ParseHierarchy(Some(scheme), rest)
  {
    var s := scheme + ":" + rest;
    assert forall j :: 0 <= j < |scheme| ==> s[j] == scheme[j];
    assert s[|scheme|] == ':';
    FirstOfIs(s, {':', '/', '?'}, |scheme|);
    assert s[..|scheme|] == scheme;
    assert s[|scheme| + 1..] == rest;
  }

  lemma SplitHostOf(host: string, after: string)
    requires forall i :: 0 <= i < |host| ==> IsUnreserved(host[i])
    requires after == [] || after[0] == '/' || after[0] == '?'
    ensures SplitHost("//" + host + after) == (Some(host), after)
  {
    var rest := "//" + host + after;
    assert rest[2..] == host + after;
    assert forall j :: 0 <= j < |host| ==> rest[2..][j] == host[j];
    FirstOfIs(rest[2..], {'/', '?'}, |host|);
    assert rest[2..][..|host|] == host;
    assert rest[2..][|host|..] == after;
  }

  lemma ParsePlainPath(scheme: Option<string>, host: Option<string>, path: string, withQuery: bool)
    requires forall i :: 0 <= i < |path| ==> IsPChar(path[i]) || path[i] == '/'
    ensures ParsePathQuery(scheme, host, "/" + path + (if withQuery then "?" else ""))
         == Some(UrlParts(scheme, host, "/" + path, if withQuery then Some([]) else None))
  {
    var after := "/" + path + (if withQuery then "?" else "");
    assert forall j :: 0 <= j < 1 + |path| ==> after[j] == ("/" + path)[j];
    FirstOfIs(after, {'?'}, 1 + |path|);
    assert after[..1 + |path|] == "/" + path;
    if withQuery {
      assert after[1 + |path| + 1..] == "";
    }
    PlainTextDecodes("/" + path);
  }

  /** `//host/path`, optionally followed by an empty query `?`, parses to
      exactly its parts when the path is plain (no `%`, `?` or `#`). */
  lemma ParseHostPath(scheme: Option<string>, host: string, path: string, withQuery: bool)
    requires forall i :: 0 <= i < |host| ==> IsUnreserved(host[i])
    requires forall i :: 0 <= i < |path| ==> IsPChar(path[i]) || path[i] == '/'
    ensures ParseHierarchy(scheme, "//" + host + "/" + path + (if withQuery then "?" else ""))
         == Some(UrlParts(scheme, Some(host), "/" + path, if withQuery then Some([]) else None))
  {
    var after := "/" + path + (if withQuery then "?" else "");
    assert "//" + host + "/" + path + (if withQuery then "?" else "") == "//" + host + after;
    SplitHostOf(host, after);
    ParsePlainPath(scheme, Some(host), path, withQuery);
  }

  /** The form `scheme://host/path[?]` that return addresses take. */
  lemma ParseSchemeHostPath(scheme: string, host: string, path: string, withQuery: bool)
    requires ValidScheme(scheme)
    requires forall i :: 0 <= i < |host| ==> IsUnreserved(host[i])
    requires forall i :: 0 <= i < |path| ==> IsPChar(path[i]) || path[i] == '/'
    ensures ParseUrl(scheme + "://" + host + "/" + path + (if withQuery then "?" else ""))
         == Some(UrlParts(Some(scheme), Some(host), "/" + path, if withQuery then Some([]) else None))
  {
    var tail := if withQuery then "?" else "";
    assert scheme + "://" + host + "/" + path + tail == scheme + ":" + ("//" + host + "/" + path + tail);
    ParseAfterScheme(scheme, "//" + host + "/" + path + tail);
    ParseHostPath(Some(scheme), host, path, withQuery);
  }

  /** A plain path followed by `?` and a query string: the query is split
      into items as `URLComponents.queryItems` does. */
  lemma ParsePlainPathQuery(scheme: Option<string>, host: Option<string>, path: string, q: string)
    requires forall i :: 0 <= i < |path| ==> IsPChar(path[i]) || path[i] == '/'
    requires ValidQuery(q)
    ensures QueryItems(q).Some? ==>
              ParsePathQuery(scheme, host, "/" + path + "?" + q)
              == Some(UrlParts(scheme, host, "/" + path, Some(QueryItems(q).value)))
    ensures QueryItems(q).None? ==> ParsePathQuery(scheme, host, "/" + path + "?" + q) == None
  {
    var after := "/" + path + "?" + q;
    assert forall j :: 0 <= j < 1 + |path| ==> after[j] == ("/" + path)[j];
    assert after[1 + |path|] == '?';
    FirstOfIs(after, {'?'}, 1 + |path|);
    assert after[..1 + |path|] == "/" + path;
    assert after[1 + |path| + 1..] == q;
    PlainTextDecodes("/" + path);
  }

  /** After `//host`, the rest is parsed as path and query. */
  lemma ParseHostThen(scheme: Option<string>, host: string, after: string)
    requires forall i :: 0 <= i < |host| ==> IsUnreserved(host[i])
    requires after == [] || after[0] == '/' || after[0] == '?'
    ensures ParseHierarchy(scheme, "//" + host + after) == ParsePathQuery(scheme, Some(host), after)
  {
    SplitHostOf(host, after);
    assert ValidHost(host);
  }

  /** `scheme://host` and then the path and query. */
  lemma ParseSchemeHostThen(scheme: string, host: string, after: string)
    requires ValidScheme(scheme)
    requires forall i :: 0 <= i < |host| ==> IsUnreserved(host[i])
    requires after == [] || after[0] == '/' || after[0] == '?'
    ensures ParseUrl(scheme + "://" + host + after) == ParsePathQuery(Some(scheme), Some(host), after)
  {
    assert scheme + "://" + host + after == scheme + ":" + ("//" + host + after);
    ParseAfterScheme(scheme, "//" + host + after);
    ParseHostThen(Some(scheme), host, after);
  }

  /** `scheme://host/path?query`, the form of an encoded request. */
  lemma ParseSchemeHostPathQuery(scheme: string, host: string, path: string, q: string)
    requires ValidScheme(scheme)
    requires forall i :: 0 <= i < |host| ==> IsUnreserved(host[i])
    requires forall i :: 0 <= i < |path| ==> IsPChar(path[i]) || path[i] == '/'
    requires ValidQuery(q) && QueryItems(q).Some?
    ensures ParseUrl(scheme + "://" + host + "/" + path + "?" + q)
         == Some(UrlParts(Some(scheme), Some(host), "/" + path, Some(QueryItems(q).value)))
  {
    var after := "/" + path + "?" + q;
    assert scheme + "://" + host + "/" + path + "?" + q == scheme + "://" + host + after;
    ParseSchemeHostThen(scheme, host, after);
    ParsePlainPathQuery(Some(scheme), Some(host), path, q);
  }

  /** `scheme://host` with nothing after the host has the empty path. */
  lemma ParseSchemeHost(scheme: string, host: string)
    requires ValidScheme(scheme)
    requires forall i :: 0 <= i < |host| ==> IsUnreserved(host[i])
    ensures ParseUrl(scheme + "://" + host) == Some(UrlParts(Some(scheme), Some(host), "", None))
  {
    assert scheme + "://" + host == scheme + "://" + host + "";
    ParseSchemeHostThen(scheme, host, "");
    EmptyPathQuery(Some(scheme), Some(host));
  }

  lemma EmptyPathQuery(scheme: Option<string>, host: Option<string>)
    ensures ParsePathQuery(scheme, host, "") == Some(UrlParts(scheme, host, "", None))
  {
    FirstOfIs("", {'?'}, 0);
    assert ValidPath("");
  }

  /** A relative reference `seg/seg/…` without `:`, `?` or `%` has neither
      scheme nor host, and is all path. */
  lemma ParseRelativePath(path: string)
    requires forall i :: 0 <= i < |path| ==> (IsPChar(path[i]) && path[i] != ':') || path[i] == '/'
    requires path == "" || path[0] != '/'
    ensures ParseUrl(path) == Some(UrlParts(None, None, path, None))
  {
    NoScheme(path);
    assert SplitHost(path) == (None, path);
    assert ParseHierarchy(None, path) == ParsePathQuery(None, None, path);
    PlainPathOnly(path);
  }

  /** A string whose first `:`, `/` or `?` is not a `:` has no scheme. */
  lemma NoScheme(s: string)
    requires forall i :: 0 <= i < |s| ==> s[i] != ':'
    ensures ParseUrl(s) == ParseHierarchy(None, s)
  {
    var i := FirstOf(s, {':', '/', '?'});
    assert i < |s| ==> s[i] != ':';
  }

  /** A plain path without `?` is all path. */
  lemma PlainPathOnly(path: string)
    requires forall i :: 0 <= i < |path| ==> IsPChar(path[i]) || path[i] == '/'
    ensures ParsePathQuery(None, None, path) == Some(UrlParts(None, None, path, None))
  {
    FirstOfIs(path, {'?'}, |path|);
    assert path[..|path|] == path;
    PlainTextDecodes(path);
  }

  /** A query `name=value` of unreserved characters is one item. */
  lemma QuerySingleItem(name: string, value: string)
    requires forall i :: 0 <= i < |name| ==> IsUnreserved(name[i])
    requires forall i :: 0 <= i < |value| ==> IsUnreserved(value[i])
    ensures ValidQuery(name + "=" + value)
    ensures QueryItems(name + "=" + value) == Some([QueryItem(name, Some(value))])
  {
    var q := name + "=" + value;
    assert forall j :: 0 <= j < |q| ==> q[j] == '=' || IsUnreserved(q[j]);
    FirstOfIs(q, {'&'}, |q|);
    assert Segments(q) == [q];
    assert forall j :: 0 <= j < |name| ==> q[j] == name[j];
    FirstOfIs(q, {'='}, |name|);
    assert q[..|name|] == name;
    assert q[|name| + 1..] == value;
    PlainTextDecodes(name);
    PlainTextDecodes(value);
    assert ParseItem(q) == Some(QueryItem(name, Some(value)));
    assert q != "";
    assert [q][1..] == [];
    assert ParseItems([q][1..]) == Some([]);
    assert [QueryItem(name, Some(value))] + [] == [QueryItem(name, Some(value))];
    assert ParseItems([q]) == Some([QueryItem(name, Some(value))]);
  }

  /** A string with no `:`, `/` or `?` is a bare path; one of its characters
      outside the path syntax makes the whole string fail to parse. */
  lemma BarePathWithBadCharDoesNotParse(s: string, bad: nat)
    requires forall j :: 0 <= j < |s| ==> s[j] !in {':', '/', '?'}
    requires bad < |s| && !(IsPChar(s[bad]) || s[bad] == '%')
    ensures ParseUrl(s) == None
  {
    FirstOfIs(s, {':', '/', '?'}, |s|);
    assert SplitHost(s) == (None, s);
    FirstOfIs(s, {'?'}, |s|);
    assert s[..|s|] == s;
  }

  /** A string that is not URL syntax, such as `^^Invalid^^`, does not parse. */
  lemma CaretsDoNotParse()
    ensures ParseUrl("^^Invalid^^") == None
  {
    var s := "^^Invalid^^";
    assert forall j :: 0 <= j < |s| ==> s[j] !in {':', '/', '?'};
    BarePathWithBadCharDoesNotParse(s, 0);
  }
}
