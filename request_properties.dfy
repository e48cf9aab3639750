/** What the request model promises: the accessors of the return addresses
    work as a pair, decoding keeps the last value of each key, and encoding
    followed by decoding gives the request back when nothing needs escaping. */
module RequestProperties {
  import opened Wrappers
  import opened Urls
  import opened Errors
  import opened Requests
  import P = Parameters

  /** An action that can be written into a URL path as it is, and that
      `URL.path` reads back unchanged: it does not end in `/`, since
      Foundation drops a trailing slash from the path. */
  predicate IsPlainAction(a: string) {
    |a| > 0 && (forall i :: 0 <= i < |a| ==> IsPChar(a[i]) || a[i] == '/') && a[|a| - 1] != '/'
  }

  lemma CallbackHostUnreserved()
    ensures forall i :: 0 <= i < |CallbackHost| ==> IsUnreserved(CallbackHost[i])
  {
    var h := CallbackHost;
    assert h == ['x', '-', 'c', 'a', 'l', 'l', 'b', 'a', 'c', 'k', '-', 'u', 'r', 'l'];
  }

  // ---------------------------------------------------------------------------
  // Return addresses
  // ---------------------------------------------------------------------------

  /** Setting a key and removing it again leaves the parameters as removing
      it alone would; a key that was absent leaves the request as it was. */
  lemma AddThenRemoveParameter(r: XCallbackRequest, key: string, value: string)
    ensures RemoveParameter(AddParameter(r, key, value), key) == RemoveParameter(r, key)
    ensures key !in r.parameters ==> RemoveParameter(AddParameter(r, key, value), key) == r
  {
    var a := RemoveParameter(AddParameter(r, key, value), key).parameters;
    var b := RemoveParameter(r, key).parameters;
    SameMaps(a, b);
    if key !in r.parameters {
      SameMaps(b, r.parameters);
    }
  }

  /** Each return address removed after it was set leaves the request as
      before when it was not set already. */
  lemma AddThenRemoveRestores(r: XCallbackRequest, scheme: string, action: string)
    ensures RemoveXSuccessAction(AddXSuccessAction(r, scheme, action)) == RemoveXSuccessAction(r)
    ensures RemoveXErrorAction(AddXErrorAction(r, scheme, action)) == RemoveXErrorAction(r)
    ensures RemoveXCancelAction(AddXCancelAction(r, scheme, action)) == RemoveXCancelAction(r)
    ensures P.SuccessKey !in r.parameters ==> RemoveXSuccessAction(AddXSuccessAction(r, scheme, action)) == r
    ensures P.ErrorKey !in r.parameters ==> RemoveXErrorAction(AddXErrorAction(r, scheme, action)) == r
    ensures P.CancelKey !in r.parameters ==> RemoveXCancelAction(AddXCancelAction(r, scheme, action)) == r
  {
    var u := CallbackUrlString(scheme, action);
    AddThenRemoveParameter(r, P.SuccessKey, u);
    AddThenRemoveParameter(r, P.ErrorKey, u);
    AddThenRemoveParameter(r, P.CancelKey, u);
  }

  /** The address a setter stores parses to the parts it was made of. */
  lemma CallbackUrlParses(scheme: string, action: string)
    requires ValidScheme(scheme) && IsPlainAction(action)
    ensures ParseUrl(CallbackUrlString(scheme, action))
         == Some(UrlParts(Some(scheme), Some(CallbackHost), "/" + action, None))
    ensures ParseUrl(CallbackUrlString(scheme, action) + "?")
         == Some(UrlParts(Some(scheme), Some(CallbackHost), "/" + action, Some([])))
  {
    CallbackHostUnreserved();
    assert CallbackUrlString(scheme, action) == scheme + "://" + CallbackHost + "/" + action + "";
    ParseSchemeHostPath(scheme, CallbackHost, action, false);
    ParseSchemeHostPath(scheme, CallbackHost, action, true);
  }

  lemma ReturnAddressDecodes(r: XCallbackRequest, key: string, scheme: string, action: string)
    requires ValidScheme(scheme) && IsPlainAction(action)
    requires key in r.parameters && r.parameters[key] == CallbackUrlString(scheme, action)
    ensures ReturnRequest(r, key) == Some(XCallbackRequest(scheme, action, map[]))
  {
    CallbackUrlParses(scheme, action);
    assert ("/" + action)[1..] == action;
  }

  /** A return address set from a valid scheme and a plain action is read
      back as the request with that scheme and action and no parameters. */
  lemma ReturnAddressRoundTrip(r: XCallbackRequest, scheme: string, action: string)
    requires ValidScheme(scheme) && IsPlainAction(action)
    ensures XSuccess(AddXSuccessAction(r, scheme, action)) == Some(XCallbackRequest(scheme, action, map[]))
    ensures XError(AddXErrorAction(r, scheme, action)) == Some(XCallbackRequest(scheme, action, map[]))
    ensures XCancel(AddXCancelAction(r, scheme, action)) == Some(XCallbackRequest(scheme, action, map[]))
  {
    ReturnAddressDecodes(AddXSuccessAction(r, scheme, action), P.SuccessKey, scheme, action);
    ReturnAddressDecodes(AddXErrorAction(r, scheme, action), P.ErrorKey, scheme, action);
    ReturnAddressDecodes(AddXCancelAction(r, scheme, action), P.CancelKey, scheme, action);
  }

  /** A stored string that is not a URL, such as `^^Invalid^^`, reads as no
      return address. */
  lemma InvalidReturnAddress(r: XCallbackRequest)
    ensures XSuccess(AddParameter(r, P.SuccessKey, "^^Invalid^^")) == None
    ensures XError(AddParameter(r, P.ErrorKey, "^^Invalid^^")) == None
    ensures XCancel(AddParameter(r, P.CancelKey, "^^Invalid^^")) == None
  {
    CaretsDoNotParse();
  }

  // ---------------------------------------------------------------------------
  // Decoding
  // ---------------------------------------------------------------------------

  /** A key is decoded exactly when some query item with a value carries it. */
  lemma {:induction false} ParamsOfKeys(items: seq<QueryItem>, k: string)
    ensures k in ParamsOf(items) <==> exists i :: 0 <= i < |items| && items[i].name == k && items[i].value.Some?
    decreases |items|
  {
    if items != [] {
      var n := |items| - 1;
      var init := items[..n];
      ParamsOfKeys(init, k);
      if k in ParamsOf(init) {
        var i :| 0 <= i < n && init[i].name == k && init[i].value.Some?;
        assert items[i] == init[i];
      }
      if exists i :: 0 <= i < |items| && items[i].name == k && items[i].value.Some? {
        var i :| 0 <= i < |items| && items[i].name == k && items[i].value.Some?;
        if i < n {
          assert init[i] == items[i];
        }
      }
    }
  }

  /** A decoded key has the value of the last query item with a value that
      carries it. */
  lemma {:induction false} ParamsOfLastWins(items: seq<QueryItem>, k: string)
    ensures k in ParamsOf(items) <==> exists i :: 0 <= i < |items| && items[i].name == k && items[i].value.Some?
    ensures k in ParamsOf(items) ==>
              exists i :: 0 <= i < |items| && items[i].name == k
                && items[i].value == Some(ParamsOf(items)[k])
                && forall j :: i < j < |items| ==> items[j].name != k || items[j].value.None?
    decreases |items|
  {
    ParamsOfKeys(items, k);
    if items != [] && k in ParamsOf(items) {
      var n := |items| - 1;
      var init := items[..n];
      var last := items[n];
      if last.name == k && last.value.Some? {
        assert ParamsOf(items)[k] == last.value.value;
        assert items[n].value == Some(ParamsOf(items)[k]);
      } else {
        ParamsOfLastWins(init, k);
        assert k in ParamsOf(init) && ParamsOf(items)[k] == ParamsOf(init)[k];
        var i :| 0 <= i < n && init[i].name == k && init[i].value == Some(ParamsOf(init)[k])
          && forall j :: i < j < n ==> init[j].name != k || init[j].value.None?;
        LastOccurrenceExtends(items, k, i);
      }
    }
  }

  /** An occurrence that is the last valued one of `k` before the final item
      stays the last one when the final item does not carry `k`. */
  lemma LastOccurrenceExtends(items: seq<QueryItem>, k: string, i: nat)
    requires 0 <= i < |items| - 1
    requires items[|items| - 1].name != k || items[|items| - 1].value.None?
    requires var init := items[..|items| - 1];
      forall j :: i < j < |init| ==> init[j].name != k || init[j].value.None?
    ensures forall j :: i < j < |items| ==> items[j].name != k || items[j].value.None?
  {
    var init := items[..|items| - 1];
    assert forall j :: i < j < |init| ==> items[j] == init[j];
  }

  /** With distinct names and every value present, each item lands under
      its own name. */
  lemma ParamsOfDistinct(items: seq<QueryItem>)
    requires forall i :: 0 <= i < |items| ==> items[i].value.Some?
    requires forall i, j :: 0 <= i < j < |items| ==> items[i].name != items[j].name
    ensures forall k :: k in ParamsOf(items) <==> exists i :: 0 <= i < |items| && items[i].name == k
    ensures forall i :: 0 <= i < |items| ==>
              items[i].name in ParamsOf(items) && ParamsOf(items)[items[i].name] == items[i].value.value
  {
    forall k {
      ParamsOfLastWins(items, k);
    }
    forall i | 0 <= i < |items|
      ensures items[i].name in ParamsOf(items) && ParamsOf(items)[items[i].name] == items[i].value.value
    {
      ParamsOfLastWins(items, items[i].name);
      var i' :| 0 <= i' < |items| && items[i'].name == items[i].name
        && items[i'].value == Some(ParamsOf(items)[items[i].name]);
      assert i' == i;
    }
  }

  /** The parameters of a decoded request come from the query alone: no
      `x-source` or other key is added, and a key repeated in the query has
      the value of its last occurrence that carries one. */
  lemma DecodedKeysComeFromQuery(url: UrlParts, k: string)
    requires InitWithUrl(url).Success?
    ensures k in InitWithUrl(url).value.parameters <==>
      url.query.Some? &&
      exists i :: 0 <= i < |url.query.value| && url.query.value[i].name == k && url.query.value[i].value.Some?
    ensures url.query.Some? && k in InitWithUrl(url).value.parameters ==>
      var q := url.query.value;
      exists i :: 0 <= i < |q| && q[i].name == k
        && q[i].value == Some(InitWithUrl(url).value.parameters[k])
        && forall j :: i < j < |q| ==> q[j].name != k || q[j].value.None?
  {
    if url.query.Some? {
      ParamsOfLastWins(url.query.value, k);
    }
  }

  /** The host plays no part in decoding. */
  lemma DecodeIgnoresHost(url: UrlParts, host: Option<string>)
    ensures InitWithUrl(url.(host := host)) == InitWithUrl(url)
  {
  }

  /** `x-callback-url/action`, with no scheme, fails with `missingScheme`. */
  lemma MissingSchemeExample(action: string)
    requires forall i :: 0 <= i < |action| ==> (IsPChar(action[i]) && action[i] != ':') || action[i] == '/'
    ensures ParseUrl(CallbackHost + "/" + action).Some?
    ensures InitWithUrl(ParseUrl(CallbackHost + "/" + action).value) == Failure(MalformedRequest(MissingScheme))
    ensures Code(InitWithUrl(ParseUrl(CallbackHost + "/" + action).value).error) == 1305
  {
    var s := CallbackHost + "/" + action;
    CallbackHostUnreserved();
    assert forall i :: 0 <= i < |s| ==> (IsPChar(s[i]) && s[i] != ':') || s[i] == '/' by {
      assert forall i :: 0 <= i < |CallbackHost| ==> s[i] == CallbackHost[i];
      assert forall i :: |CallbackHost| < i < |s| ==> s[i] == action[i - |CallbackHost| - 1];
    }
    assert s[0] == 'x';
    ParseRelativePath(s);
  }

  /** `scheme://x-callback-url`, with an empty path, fails with `missingAction`. */
  lemma MissingActionExample(scheme: string)
    requires ValidScheme(scheme)
    ensures ParseUrl(scheme + "://" + CallbackHost) == Some(UrlParts(Some(scheme), Some(CallbackHost), "", None))
    ensures InitWithUrl(UrlParts(Some(scheme), Some(CallbackHost), "", None)) == Failure(MalformedRequest(MissingAction))
    ensures Code(InitWithUrl(UrlParts(Some(scheme), Some(CallbackHost), "", None)).error) == 1310
  {
    CallbackHostParses(scheme);
    EmptyPathDecode(UrlParts(Some(scheme), Some(CallbackHost), "", None));
  }

  lemma EmptyPathDecode(url: UrlParts)
    requires url.scheme.Some? && url.path == ""
    ensures InitWithUrl(url) == Failure(MalformedRequest(MissingAction))
    ensures Code(InitWithUrl(url).error) == 1310
  {
  }

  lemma CallbackHostParses(scheme: string)
    requires ValidScheme(scheme)
    ensures ParseUrl(scheme + "://" + CallbackHost) == Some(UrlParts(Some(scheme), Some(CallbackHost), "", None))
  {
    CallbackHostUnreserved();
    ParseSchemeHost(scheme, CallbackHost);
  }

  /** Inner slashes stay in the action: `scheme://x-callback-url/a/b` has
      action `a/b`. */
  lemma ExtendedPathExample(scheme: string, first: string, second: string)
    requires ValidScheme(scheme) && IsPlainAction(first) && IsPlainAction(second)
    ensures var url := ParseUrl(CallbackUrlString(scheme, first + "/" + second));
      url.Some? && InitWithUrl(url.value) == Success(XCallbackRequest(scheme, first + "/" + second, map[]))
  {
    var a := first + "/" + second;
    assert IsPlainAction(a) by {
      assert forall i :: 0 <= i < |first| ==> a[i] == first[i];
      assert forall i :: |first| < i < |a| ==> a[i] == second[i - |first| - 1];
    }
    CallbackUrlParses(scheme, a);
    assert ("/" + a)[1..] == a;
  }

  /** `scheme://x-callback-url/action?key=value` decodes to the one
      parameter `key = value`. */
  lemma QueryParameterExample(scheme: string, action: string, key: string, value: string)
    requires ValidScheme(scheme) && IsPlainAction(action)
    requires forall i :: 0 <= i < |key| ==> IsUnreserved(key[i])
    requires forall i :: 0 <= i < |value| ==> IsUnreserved(value[i])
    ensures var url := ParseUrl(CallbackUrlString(scheme, action) + "?" + key + "=" + value);
      url.Some? && InitWithUrl(url.value) == Success(XCallbackRequest(scheme, action, map[key := value]))
  {
    var q := key + "=" + value;
    QuerySingleItem(key, value);
    CallbackHostUnreserved();
    assert CallbackUrlString(scheme, action) + "?" + key + "=" + value
        == scheme + "://" + CallbackHost + "/" + action + "?" + q;
    ParseSchemeHostPathQuery(scheme, CallbackHost, action, q);
    assert ("/" + action)[1..] == action;
    assert [QueryItem(key, Some(value))][..0] == [];
    assert ParamsOf([QueryItem(key, Some(value))]) == map[][key := value];
  }

  // ---------------------------------------------------------------------------
  // Encoding
  // ---------------------------------------------------------------------------

  lemma PercentEncodeInjectiveAll()
    ensures forall s, t :: PercentEncode(s).Some? && PercentEncode(s) == PercentEncode(t) ==> s == t
  {
    forall s, t | PercentEncode(s).Some? && PercentEncode(s) == PercentEncode(t) {
      PercentEncodeInjective(s, t);
    }
  }

  lemma EncodedKeysDistinct(p: map<string, string>)
    requires Encodable(p)
    ensures forall k, j :: k in p && j in p && PercentEncode(k) == PercentEncode(j) ==> k == j
  {
    forall k, j | k in p && j in p && PercentEncode(k) == PercentEncode(j) {
      PercentEncodeInjective(k, j);
    }
  }

  /** The dictionary with every key and value percent-encoded once. */
  function EncodedParameters(p: map<string, string>): map<string, string>
    requires Encodable(p)
  {
    EncodedKeysDistinct(p);
    map k | k in p :: PercentEncode(k).value := PercentEncode(p[k]).value
  }

  /** Each entry of the dictionary appears encoded, and nothing else does. */
  lemma EncodedEntries(p: map<string, string>)
    requires Encodable(p)
    ensures var e := EncodedParameters(p);
      && (forall k :: k in p ==> PercentEncode(k).value in e && e[PercentEncode(k).value] == PercentEncode(p[k]).value)
      && (forall k' :: k' in e ==> exists k :: k in p && PercentEncode(k).value == k')
  {
    var e := EncodedParameters(p);
    EncodedKeysDistinct(p);
    forall k | k in p
      ensures PercentEncode(k).value in e && e[PercentEncode(k).value] == PercentEncode(p[k]).value
    {
      var x := PercentEncode(k).value;
      assert x in e;
      var j :| j in p && PercentEncode(j).value == x && e[x] == PercentEncode(p[j]).value;
      assert j == k;
    }
  }

  /** The query items of a successfully encoded request. */
  lemma EncodedItems(r: XCallbackRequest, order: seq<string>)
    requires IsEnumeration(order, r.parameters.Keys)
    requires AsUrl(r, order).Success?
    ensures AsUrl(r, order).value.query == EncodeItems(r.parameters, order)
    ensures EncodeItems(r.parameters, order).Some?
  {
  }

  /** Decoding an encoded request gives back its scheme and its action, and
      every key and value encoded once: `asURL()` escapes them before the
      query items are escaped again for the URL, and reading the URL undoes
      only the second escape. Whatever order the dictionary is written in,
      the decoded request is the same. */
  lemma EncodedRequestDecodes(r: XCallbackRequest, order: seq<string>)
    requires IsEnumeration(order, r.parameters.Keys)
    requires ValidScheme(r.targetScheme) && IsPlainAction(r.action)
    requires Encodable(r.parameters)
    ensures AsUrl(r, order).Success?
    ensures InitWithUrl(AsUrl(r, order).value)
         == Success(XCallbackRequest(r.targetScheme, r.action, EncodedParameters(r.parameters)))
  {
    CallbackUrlParses(r.targetScheme, r.action);
    var items := EncodeItems(r.parameters, order).value;
    assert AsUrl(r, order).value == UrlParts(Some(r.targetScheme), Some(CallbackHost), "/" + r.action, Some(items));
    assert ("/" + r.action)[1..] == r.action;
    EncodedItemsDecode(r.parameters, order);
  }

  /** The encoded items of a dictionary, read back, are its encoded dictionary. */
  lemma EncodedItemsDecode(p: map<string, string>, order: seq<string>)
    requires IsEnumeration(order, p.Keys) && Encodable(p)
    ensures EncodeItems(p, order).Some?
    ensures ParamsOf(EncodeItems(p, order).value) == EncodedParameters(p)
  {
    var items := EncodeItems(p, order).value;
    var d := ParamsOf(items);
    var e := EncodedParameters(p);
    EncodedNamesDistinct(p, order);
    ParamsOfDistinct(items);
    DecodedWithinEncoded(p, order, items, d, e);
    EncodedWithinDecoded(p, order, items, d, e);
    SameMaps(d, e);
  }

  lemma SameMaps(d: map<string, string>, e: map<string, string>)
    requires forall k :: k in d ==> k in e && d[k] == e[k]
    requires forall k :: k in e ==> k in d
    ensures d == e
  {
    assert d.Keys == e.Keys;
  }

  lemma DecodedWithinEncoded(p: map<string, string>, order: seq<string>, items: seq<QueryItem>,
                             d: map<string, string>, e: map<string, string>)
    requires IsEnumeration(order, p.Keys) && Encodable(p)
    requires EncodeItems(p, order) == Some(items) && e == EncodedParameters(p)
    requires forall k :: k in d <==> exists i :: 0 <= i < |items| && items[i].name == k
    requires forall i :: 0 <= i < |items| ==> items[i].name in d && d[items[i].name] == items[i].value.value
    ensures forall k :: k in d ==> k in e && d[k] == e[k]
  {
    forall k | k in d ensures k in e && d[k] == e[k] {
      var i :| 0 <= i < |items| && items[i].name == k;
      var k0 := order[i];
      assert k0 in p;
      assert items[i] == QueryItem(PercentEncode(k0).value, Some(PercentEncode(p[k0]).value));
    }
  }

  lemma EncodedWithinDecoded(p: map<string, string>, order: seq<string>, items: seq<QueryItem>,
                             d: map<string, string>, e: map<string, string>)
    requires IsEnumeration(order, p.Keys) && Encodable(p)
    requires EncodeItems(p, order) == Some(items) && e == EncodedParameters(p)
    requires forall i :: 0 <= i < |items| ==> items[i].name in d
    ensures forall k :: k in e ==> k in d
  {
    forall k | k in e ensures k in d {
      var k0 :| k0 in p && PercentEncode(k0).value == k;
      var i :| 0 <= i < |order| && order[i] == k0;
      assert items[i].name == k;
    }
  }

  /** Distinct keys have distinct encodings. */
  lemma EncodedNamesDistinct(p: map<string, string>, order: seq<string>)
    requires IsEnumeration(order, p.Keys) && Encodable(p)
    ensures EncodeItems(p, order).Some?
    ensures var items := EncodeItems(p, order).value;
      (forall i :: 0 <= i < |items| ==> items[i].value.Some?)
      && forall i, j :: 0 <= i < j < |items| ==> items[i].name != items[j].name
  {
    var items := EncodeItems(p, order).value;
    forall i, j | 0 <= i < j < |items| ensures items[i].name != items[j].name {
      assert order[i] != order[j];
      if items[i].name == items[j].name {
        PercentEncodeInjective(order[i], order[j]);
      }
    }
  }

  /** On keys and values that need no escaping, encoding then decoding is
      the identity, whatever the order the dictionary is written in. */
  lemma RoundTrip(r: XCallbackRequest, order: seq<string>)
    requires IsEnumeration(order, r.parameters.Keys)
    requires ValidScheme(r.targetScheme) && IsPlainAction(r.action)
    requires forall k :: k in r.parameters ==> IsPlainText(k) && IsPlainText(r.parameters[k])
    ensures AsUrl(r, order).Success?
    ensures InitWithUrl(AsUrl(r, order).value) == Success(r)
  {
    PlainParametersUnchanged(r.parameters);
    EncodedRequestDecodes(r, order);
    assert r.(parameters := EncodedParameters(r.parameters)) == r;
  }

  /** A dictionary whose keys and values need no escaping is its own encoding. */
  lemma PlainParametersUnchanged(p: map<string, string>)
    requires forall k :: k in p ==> IsPlainText(k) && IsPlainText(p[k])
    ensures Encodable(p) && EncodedParameters(p) == p
  {
    forall k | k in p ensures PercentEncode(k) == Some(k) && PercentEncode(p[k]) == Some(p[k]) {
      PercentEncodeIdentity(k);
      PercentEncodeIdentity(p[k]);
    }
    var e := EncodedParameters(p);
    forall k | k in e ensures k in p && e[k] == p[k] {
      var k0 :| k0 in p && PercentEncode(k0).value == k;
    }
    SameMaps(e, p);
  }

  /** The decoded request does not depend on the order of the dictionary. */
  lemma EncodingOrderIrrelevant(r: XCallbackRequest, order1: seq<string>, order2: seq<string>)
    requires IsEnumeration(order1, r.parameters.Keys) && IsEnumeration(order2, r.parameters.Keys)
    requires ValidScheme(r.targetScheme) && IsPlainAction(r.action)
    ensures AsUrl(r, order1).Success? == AsUrl(r, order2).Success?
    ensures AsUrl(r, order1).Success? ==> InitWithUrl(AsUrl(r, order1).value) == InitWithUrl(AsUrl(r, order2).value)
  {
    if Encodable(r.parameters) {
      EncodedRequestDecodes(r, order1);
      EncodedRequestDecodes(r, order2);
    }
  }

  /** A request without parameters encodes to `scheme://x-callback-url/action?`. */
  lemma EncodeWithoutParameters(scheme: string, action: string)
    requires ValidScheme(scheme) && IsPlainAction(action)
    ensures ParseUrl(CallbackUrlString(scheme, action) + "?").Some?
    ensures AsUrl(XCallbackRequest(scheme, action, map[]), [])
         == Success(ParseUrl(CallbackUrlString(scheme, action) + "?").value)
  {
    CallbackUrlParses(scheme, action);
  }

  /** `{"msg": "a b"}` comes back as `{"msg": "a%20b"}`. */
  lemma DoubleEncodingExample(scheme: string, action: string)
    requires ValidScheme(scheme) && IsPlainAction(action)
    ensures var r := XCallbackRequest(scheme, action, map["msg" := "a b"]);
      AsUrl(r, ["msg"]).Success?
      && InitWithUrl(AsUrl(r, ["msg"]).value) == Success(XCallbackRequest(scheme, action, map["msg" := "a%20b"]))
  {
    var p := map["msg" := "a b"];
    MessageEncodes();
    EncodedRequestDecodes(XCallbackRequest(scheme, action, p), ["msg"]);
    EncodedSingleton("msg", "a b");
  }

  /** The key `msg` needs no escaping and the value `a b` becomes `a%20b`. */
  lemma MessageEncodes()
    ensures PercentEncode("msg") == Some("msg") && PercentEncode("a b") == Some("a%20b")
  {
    EncodeSpace();
    assert IsPlainText("msg");
    PercentEncodeIdentity("msg");
  }

  /** A one-entry dictionary encodes to the one encoded entry. */
  lemma EncodedSingleton(k: string, v: string)
    requires PercentEncode(k).Some? && PercentEncode(v).Some?
    ensures Encodable(map[k := v])
    ensures EncodedParameters(map[k := v]) == map[PercentEncode(k).value := PercentEncode(v).value]
  {
    SameMaps(EncodedParameters(map[k := v]), map[PercentEncode(k).value := PercentEncode(v).value]);
  }

  /** The blank is the one character of `a b` that is escaped. */
  lemma EncodeSpace()
    ensures PercentEncode("a b") == Some("a%20b")
  {
    assert IsPlainText("b");
    PercentEncodeIdentity("b");
    assert "a b"[1..] == " b" && " b"[1..] == "b";
    assert !IsQueryAllowed(' ');
    assert ' ' as int / 16 == 2 && ' ' as int % 16 == 0;
    assert HexChar(2) == '2' && HexChar(0) == '0';
    assert ['%', '2', '0'] + "b" == "%20b";
    assert PercentEncode(" b") == Some("%20b");
    assert IsQueryAllowed('a');
    assert ['a'] + "%20b" == "a%20b";
  }

  /** A scheme that is not a scheme, such as a blank one, makes encoding
      fail with the request itself as the invalid x-callback-url. */
  lemma InvalidSchemeFailsToEncode(r: XCallbackRequest, order: seq<string>)
    requires IsEnumeration(order, r.parameters.Keys)
    requires forall i :: 0 <= i < |r.targetScheme| ==> r.targetScheme[i] !in {':', '/', '?'}
    requires !ValidScheme(r.targetScheme)
    ensures AsUrl(r, order) == Failure(MalformedRequest(InvalidXCallbackURL(FromRequest(r))))
    ensures Code(AsUrl(r, order).error) == 1300
  {
    var s := CallbackUrlString(r.targetScheme, r.action);
    var n := |r.targetScheme|;
    assert forall j :: 0 <= j < n ==> s[j] == r.targetScheme[j];
    assert s[n] == ':';
    FirstOfIs(s, {':', '/', '?'}, n);
    assert s[..n] == r.targetScheme;
  }
}
