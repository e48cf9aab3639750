/** The x-callback-url request: a target scheme, an action and a dictionary
    of parameters, with the accessors for the return addresses that the
    convention reserves, and the codec between a request and the URL
    `scheme://x-callback-url/action?key=value&…`.

    Swift's `XCallbackRequest` is a struct, a value type: each `mutating`
    method is modelled as a function from the old value to the new one. */
module Requests {
  import opened Wrappers
  import opened Urls
  import opened Errors
  import P = Parameters

  /** The host every x-callback-url carries. */
  const CallbackHost: string := "x-callback-url"

  datatype XCallbackRequest = XCallbackRequest(
    targetScheme: string,
    action: string,
    parameters: map<string, string>)

  /** What may be converted to a request (`XCallbackRequestConvertable`): a
      request, a URL, or a value whose conversion always throws, as the
      throwing test fixture does. */
  datatype Convertible =
    | FromRequest(request: XCallbackRequest)
    | FromURL(url: UrlParts)
    | AlwaysThrows

  type Error = XCallbackError<Convertible>

  // ---------------------------------------------------------------------------
  // Construction and parameters
  // ---------------------------------------------------------------------------

  /** The `x-source` parameter, if set. */
  function XSourceApp(r: XCallbackRequest): (s: Option<string>)
    ensures s.Some? <==> P.SourceAppKey in r.parameters
    ensures s.Some? ==> s.value == r.parameters[P.SourceAppKey]
  {
    if P.SourceAppKey in r.parameters then Some(r.parameters[P.SourceAppKey]) else None
  }

  /** `init(targetScheme:action:)`; `sourceApp` is the application's bundle
      name, which the library looks up once. */
  function Create(targetScheme: string, action: string, sourceApp: Option<string>): (r: XCallbackRequest)
    ensures r.targetScheme == targetScheme && r.action == action
    ensures XSourceApp(r) == sourceApp
    ensures r.parameters.Keys <= {P.SourceAppKey}
    ensures |r.parameters| == if sourceApp.Some? then 1 else 0
  {
    if sourceApp.Some? then XCallbackRequest(targetScheme, action, map[P.SourceAppKey := sourceApp.value])
    else XCallbackRequest(targetScheme, action, map[])
  }

  /** `addParameter(_:_:)`: sets one key, overwriting any old value. */
  function AddParameter(r: XCallbackRequest, key: string, value: string): (r': XCallbackRequest)
    ensures r'.targetScheme == r.targetScheme && r'.action == r.action
    ensures key in r'.parameters && r'.parameters[key] == value
    ensures forall k :: k != key ==>
      (k in r'.parameters <==> k in r.parameters) && (k in r.parameters ==> r'.parameters[k] == r.parameters[k])
    ensures |r'.parameters| == |r.parameters| + (if key in r.parameters then 0 else 1)
  {
    r.(parameters := r.parameters[key := value])
  }

  /** Removes one key (`parameters.removeValue(forKey:)`). */
  function RemoveParameter(r: XCallbackRequest, key: string): (r': XCallbackRequest)
    ensures r'.targetScheme == r.targetScheme && r'.action == r.action
    ensures key !in r'.parameters
    ensures forall k :: k != key ==>
      (k in r'.parameters <==> k in r.parameters) && (k in r.parameters ==> r'.parameters[k] == r.parameters[k])
    ensures |r'.parameters| == |r.parameters| - (if key in r.parameters then 1 else 0)
  {
    var m := r.parameters - {key};
    assert m.Keys == r.parameters.Keys - {key};
    r.(parameters := m)
  }

  /** The setter of `xSourceApp`: a value sets `x-source`, `None` removes it. */
  function SetXSourceApp(r: XCallbackRequest, sourceApp: Option<string>): (r': XCallbackRequest)
    ensures XSourceApp(r') == sourceApp
    ensures r'.targetScheme == r.targetScheme && r'.action == r.action
    ensures forall k :: k != P.SourceAppKey ==>
      (k in r'.parameters <==> k in r.parameters) && (k in r.parameters ==> r'.parameters[k] == r.parameters[k])
  {
    if sourceApp.Some? then AddParameter(r, P.SourceAppKey, sourceApp.value)
    else RemoveParameter(r, P.SourceAppKey)
  }

  // ---------------------------------------------------------------------------
  // Return addresses
  // ---------------------------------------------------------------------------

  /** The URL string `scheme://x-callback-url/action` a return address is stored as. */
  function CallbackUrlString(scheme: string, action: string): (s: string)
    ensures |s| == |scheme| + 3 + |CallbackHost| + 1 + |action|
    ensures s[..|scheme|] == scheme && s[|s| - |action|..] == action
  {
    scheme + "://" + CallbackHost + "/" + action
  }

  /** `addXCallbackParameter`: stores the return address under `key`. */
  function AddXCallbackParameter(r: XCallbackRequest, key: string, scheme: string, action: string): (r': XCallbackRequest)
    ensures r'.targetScheme == r.targetScheme && r'.action == r.action
    ensures r'.parameters == r.parameters[key := CallbackUrlString(scheme, action)]
  {
    AddParameter(r, key, CallbackUrlString(scheme, action))
  }

  function AddXSuccessAction(r: XCallbackRequest, scheme: string, action: string): (r': XCallbackRequest)
    ensures r'.targetScheme == r.targetScheme && r'.action == r.action
    ensures r'.parameters == r.parameters[P.SuccessKey := CallbackUrlString(scheme, action)]
    ensures |r'.parameters| == |r.parameters| + (if P.SuccessKey in r.parameters then 0 else 1)
  {
    AddXCallbackParameter(r, P.SuccessKey, scheme, action)
  }

  function AddXErrorAction(r: XCallbackRequest, scheme: string, action: string): (r': XCallbackRequest)
    ensures r'.targetScheme == r.targetScheme && r'.action == r.action
    ensures r'.parameters == r.parameters[P.ErrorKey := CallbackUrlString(scheme, action)]
    ensures |r'.parameters| == |r.parameters| + (if P.ErrorKey in r.parameters then 0 else 1)
  {
    AddXCallbackParameter(r, P.ErrorKey, scheme, action)
  }

  function AddXCancelAction(r: XCallbackRequest, scheme: string, action: string): (r': XCallbackRequest)
    ensures r'.targetScheme == r.targetScheme && r'.action == r.action
    ensures r'.parameters == r.parameters[P.CancelKey := CallbackUrlString(scheme, action)]
    ensures |r'.parameters| == |r.parameters| + (if P.CancelKey in r.parameters then 0 else 1)
  {
    AddXCallbackParameter(r, P.CancelKey, scheme, action)
  }

  function RemoveXSuccessAction(r: XCallbackRequest): (r': XCallbackRequest)
    ensures XSuccess(r') == None
    ensures r'.targetScheme == r.targetScheme && r'.action == r.action
    ensures r'.parameters == r.parameters - {P.SuccessKey}
  {
    RemoveParameter(r, P.SuccessKey)
  }

  function RemoveXErrorAction(r: XCallbackRequest): (r': XCallbackRequest)
    ensures XError(r') == None
    ensures r'.targetScheme == r.targetScheme && r'.action == r.action
    ensures r'.parameters == r.parameters - {P.ErrorKey}
  {
    RemoveParameter(r, P.ErrorKey)
  }

  function RemoveXCancelAction(r: XCallbackRequest): (r': XCallbackRequest)
    ensures XCancel(r') == None
    ensures r'.targetScheme == r.targetScheme && r'.action == r.action
    ensures r'.parameters == r.parameters - {P.CancelKey}
  {
    RemoveParameter(r, P.CancelKey)
  }

  /** The getters: the string under `key`, read as a URL and decoded as a
      request; any failure on the way gives `None`. */
  function ReturnRequest(r: XCallbackRequest, key: string): (ret: Option<XCallbackRequest>)
    ensures key !in r.parameters ==> ret == None
    ensures key in r.parameters && ParseUrl(r.parameters[key]).None? ==> ret == None
    ensures key in r.parameters && ParseUrl(r.parameters[key]).Some? ==>
      ret == InitWithUrl(ParseUrl(r.parameters[key]).value).ToOption()
    ensures ret.Some? <==> (key in r.parameters && ParseUrl(r.parameters[key]).Some?
      && InitWithUrl(ParseUrl(r.parameters[key]).value).Success?)
  {
    if key !in r.parameters then None
    else
      var url :- ParseUrl(r.parameters[key]);
      InitWithUrl(url).ToOption()
  }

  function XSuccess(r: XCallbackRequest): (ret: Option<XCallbackRequest>)
    ensures ret.Some? <==> (P.SuccessKey in r.parameters && ParseUrl(r.parameters[P.SuccessKey]).Some?
      && InitWithUrl(ParseUrl(r.parameters[P.SuccessKey]).value).Success?)
    ensures ret.Some? ==> ret.value == InitWithUrl(ParseUrl(r.parameters[P.SuccessKey]).value).value
  {
    ReturnRequest(r, P.SuccessKey)
  }

  function XError(r: XCallbackRequest): (ret: Option<XCallbackRequest>)
    ensures ret.Some? <==> (P.ErrorKey in r.parameters && ParseUrl(r.parameters[P.ErrorKey]).Some?
      && InitWithUrl(ParseUrl(r.parameters[P.ErrorKey]).value).Success?)
    ensures ret.Some? ==> ret.value == InitWithUrl(ParseUrl(r.parameters[P.ErrorKey]).value).value
  {
    ReturnRequest(r, P.ErrorKey)
  }

  function XCancel(r: XCallbackRequest): (ret: Option<XCallbackRequest>)
    ensures ret.Some? <==> (P.CancelKey in r.parameters && ParseUrl(r.parameters[P.CancelKey]).Some?
      && InitWithUrl(ParseUrl(r.parameters[P.CancelKey]).value).Success?)
    ensures ret.Some? ==> ret.value == InitWithUrl(ParseUrl(r.parameters[P.CancelKey]).value).value
  {
    ReturnRequest(r, P.CancelKey)
  }

  // ---------------------------------------------------------------------------
  // Decoding: `init(url:)`
  // ---------------------------------------------------------------------------

  /** `String(path.dropFirst())`. */
  function DropFirst(s: string): (t: string)
    ensures |t| == if s == "" then 0 else |s| - 1
    ensures s != "" ==> t == s[1..] && s == [s[0]] + t
    ensures s == "" ==> t == ""
  {
    if s == "" then "" else s[1..]
  }

  /** The dictionary the loop of `init(url:)` builds from the query items:
      each item with a value sets its name, later items overwriting earlier
      ones; items without a value are skipped. */
  function ParamsOf(items: seq<QueryItem>): (m: map<string, string>)
    ensures |m| <= |items|
    decreases |items|
  {
    if items == [] then map[]
    else
      var last := items[|items| - 1];
      var m := ParamsOf(items[..|items| - 1]);
      if last.value.Some? then m[last.name := last.value.value] else m
  }

  /** `init(url:)`: the scheme is required, the path without its leading
      character is the action and must not be empty, the host is not
      consulted, and the parameters come from the query alone. */
  function InitWithUrl(url: UrlParts): (res: Result<XCallbackRequest, Error>)
    ensures url.scheme.None? ==> res == Failure(MalformedRequest(MissingScheme))
    ensures url.scheme.Some? && |url.path| <= 1 ==> res == Failure(MalformedRequest(MissingAction))
    ensures res.Success? <==> url.scheme.Some? && |url.path| > 1
    ensures res.Success? ==>
      res.value.targetScheme == url.scheme.value && [url.path[0]] + res.value.action == url.path
    ensures res.Success? && url.query.None? ==> res.value.parameters == map[]
  {
    if url.scheme.None? then Failure(MalformedRequest(MissingScheme))
    else
      var action := DropFirst(url.path);
      if action == "" then Failure(MalformedRequest(MissingAction))
      else
        assert url.path == [url.path[0]] + action;
        Success(XCallbackRequest(url.scheme.value, action,
          if url.query.Some? then ParamsOf(url.query.value) else map[]))
  }

  /** `init(url:)` as the source writes it, with the loop over the query items. */
  method Decode(url: UrlParts) returns (res: Result<XCallbackRequest, Error>)
    ensures res == InitWithUrl(url)
  {
    if url.scheme.None? {
      return Failure(MalformedRequest(MissingScheme));
    }
    var action := DropFirst(url.path);
    if action == "" {
      return Failure(MalformedRequest(MissingAction));
    }
    var params: map<string, string> := map[];
    if url.query.Some? {
      var items := url.query.value;
      var i := 0;
      while i < |items|
        invariant 0 <= i <= |items|
        invariant params == ParamsOf(items[..i])
      {
        assert items[..i + 1][..i] == items[..i];
        var item := items[i];
        if item.value.Some? {
          params := params[item.name := item.value.value];
        }
        i := i + 1;
      }
      assert items[..|items|] == items;
    }
    return Success(XCallbackRequest(url.scheme.value, action, params));
  }

  // ---------------------------------------------------------------------------
  // Encoding: `asURL()`
  // ---------------------------------------------------------------------------

  /** `order` lists every key of `keys` exactly once: an iteration order of a
      dictionary with those keys. */
  predicate IsEnumeration(order: seq<string>, keys: set<string>) {
    (forall i :: 0 <= i < |order| ==> order[i] in keys)
    && (forall k :: k in keys ==> k in order)
    && (forall i, j :: 0 <= i < j < |order| ==> order[i] != order[j])
  }

  /** Some iteration order of a dictionary; Swift leaves it unspecified, and
      so does this method. */
  method DictionaryOrder(m: map<string, string>) returns (order: seq<string>)
    ensures IsEnumeration(order, m.Keys)
  {
    order := [];
    var remaining := m.Keys;
    while remaining != {}
      invariant remaining <= m.Keys
      invariant forall i :: 0 <= i < |order| ==> order[i] in m.Keys && order[i] !in remaining
      invariant forall k :: k in m.Keys ==> k in remaining || k in order
      invariant forall i, j :: 0 <= i < j < |order| ==> order[i] != order[j]
      decreases |remaining|
    {
      var k :| k in remaining;
      order := order + [k];
      remaining := remaining - {k};
    }
  }

  /** The query items of `asURL()`: each key and value percent-encoded, in
      the given order; the first one that cannot be encoded fails the whole. */
  function EncodeItems(p: map<string, string>, order: seq<string>): (r: Option<seq<QueryItem>>)
    requires forall i :: 0 <= i < |order| ==> order[i] in p
    ensures r.Some? <==>
      forall i :: 0 <= i < |order| ==> PercentEncode(order[i]).Some? && PercentEncode(p[order[i]]).Some?
    ensures r.Some? ==> |r.value| == |order| && forall i :: 0 <= i < |order| ==>
      r.value[i] == QueryItem(PercentEncode(order[i]).value, Some(PercentEncode(p[order[i]]).value))
    decreases |order|
  {
    if order == [] then Some([])
    else
      var name :- PercentEncode(order[0]);
      var value :- PercentEncode(p[order[0]]);
      var rest :- EncodeItems(p, order[1..]);
      Some([QueryItem(name, Some(value))] + rest)
  }

  /** Every key and every value of `p` can be percent-encoded. */
  predicate Encodable(p: map<string, string>) {
    forall k :: k in p ==> PercentEncode(k).Some? && PercentEncode(p[k]).Some?
  }

  /** `asURL()`: the URL `scheme://x-callback-url/action` with the encoded
      parameters as its query. Every failure reports the request itself as
      an invalid x-callback-url. */
  function AsUrl(r: XCallbackRequest, order: seq<string>): (res: Result<UrlParts, Error>)
    requires IsEnumeration(order, r.parameters.Keys)
    ensures res.Failure? ==> res.error == MalformedRequest(InvalidXCallbackURL(FromRequest(r)))
    ensures res.Success? <==> ParseUrl(CallbackUrlString(r.targetScheme, r.action)).Some? && Encodable(r.parameters)
    ensures res.Success? ==> res.value.scheme == ParseUrl(CallbackUrlString(r.targetScheme, r.action)).value.scheme
    ensures res.Success? ==> res.value.path == ParseUrl(CallbackUrlString(r.targetScheme, r.action)).value.path
  {
    var failure := MalformedRequest(InvalidXCallbackURL(FromRequest(r)));
    match ParseUrl(CallbackUrlString(r.targetScheme, r.action))
    case None => Failure(failure)
    case Some(base) =>
      match EncodeItems(r.parameters, order)
      case None =>
        assert !Encodable(r.parameters) by {
          var i :| 0 <= i < |order| && !(PercentEncode(order[i]).Some? && PercentEncode(r.parameters[order[i]]).Some?);
          assert order[i] in r.parameters;
        }
        Failure(failure)
      case Some(items) => Success(base.(query := Some(items)))
  }
}
