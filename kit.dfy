/** The engine: a registry of action handlers, the sender of outgoing
    requests, the dispatcher of incoming ones, and the composer of the return
    request a handler's response calls for. */
module Kit {
  import opened Wrappers
  import opened Text
  import opened Urls
  import opened Errors
  import opened Requests
  import opened Conversion
  import R = Responses
  import P = Parameters

  /** The application that opens URLs on the device
      (`XCallbackRequestHandling`). Whether a URL can be opened is fixed for
      the device; every URL it is asked to open is recorded. */
  class Launcher {
    const canOpen: UrlParts -> bool
    ghost var launched: seq<UrlParts>

    constructor (canOpen: UrlParts -> bool)
      ensures this.canOpen == canOpen && launched == []
    {
      this.canOpen := canOpen;
      launched := [];
    }

    method Open(url: UrlParts)
      modifies this
      ensures launched == old(launched) + [url]
    {
      launched := launched + [url];
    }
  }

  /** A handler for one action (`XCallbackActionHandling`): given the
      request, it completes with a response. */
  datatype ActionHandler = ActionHandler(respond: XCallbackRequest -> R.XCallbackResponse)

  // ---------------------------------------------------------------------------
  // Specification functions
  // ---------------------------------------------------------------------------

  /** What `send` does with a convertible value: its outcome and the URLs it
      opens, for the order in which the request's parameters are written. */
  function SendEffect(x: Convertible, order: seq<string>, canOpen: UrlParts -> bool, disableSchemeQuerying: bool)
    : (effect: (Outcome<Error>, seq<UrlParts>))
    requires AsXCallbackRequest(x).Success? ==> IsEnumeration(order, AsXCallbackRequest(x).value.parameters.Keys)
    ensures effect.0.Pass? <==> |effect.1| == 1
    ensures |effect.1| <= 1
  {
    match AsXCallbackRequest(x)
    case Failure(e) => (Fail(e), [])
    case Success(request) =>
      match AsUrl(request, order)
      case Failure(e) => (Fail(e), [])
      case Success(url) =>
        if canOpen(url) || disableSchemeQuerying then (Pass, [url])
        else (Fail(ConfigurationFailure(UnregisteredApplicationScheme(request.targetScheme))), [])
  }

  /** The return request `handleResponse` composes: on success the
      `x-success` request with the response's parameters added, on
      cancellation the `x-cancel` request, on an error with both code and
      message the `x-error` request with the two added; otherwise none. */
  function ComposeReturn(request: XCallbackRequest, response: R.XCallbackResponse): (ret: Option<XCallbackRequest>)
    ensures ret.Some? <==>
      if response.isSuccess then XSuccess(request).Some?
      else if response.isCancel then XCancel(request).Some?
      else R.CarriesError(response) && XError(request).Some?
    ensures ret.Some? && response.isSuccess ==>
      ret.value.targetScheme == XSuccess(request).value.targetScheme && ret.value.action == XSuccess(request).value.action
    ensures ret.Some? && !response.isSuccess && !response.isCancel ==>
      ret.value.targetScheme == XError(request).value.targetScheme && ret.value.action == XError(request).value.action
  {
    if response.isSuccess then
      var ret :- XSuccess(request);
      Some(if response.parameters.Some? then ret.(parameters := ret.parameters + response.parameters.value) else ret)
    else if response.isCancel then XCancel(request)
    else if R.CarriesError(response) then
      var ret :- XError(request);
      Some(AddParameter(AddParameter(ret, P.ErrorCodeKey, IntToString(response.errorCode.value)),
                        P.ErrorMessageKey, response.errorMessage.value))
    else None
  }

  /** The URLs launched for a composed return: its encoding, if it encodes. */
  function ReturnLaunch(ret: Option<XCallbackRequest>, order: seq<string>): (urls: seq<UrlParts>)
    requires ret.Some? ==> IsEnumeration(order, ret.value.parameters.Keys)
    ensures |urls| <= 1
    ensures |urls| == 1 <==> ret.Some? && AsUrl(ret.value, order).Success?
    ensures |urls| == 1 ==> urls[0] == AsUrl(ret.value, order).value
  {
    if ret.None? then []
    else match AsUrl(ret.value, order)
      case Success(url) => [url]
      case Failure(_) => []
  }

  // ---------------------------------------------------------------------------
  // The kit
  // ---------------------------------------------------------------------------

  class XCallbackKit {
    var handlers: map<string, ActionHandler>
    /** Opens outgoing requests without asking the launcher first. */
    var disableSchemeQuerying: bool
    const requestHandler: Launcher
    /** Every handler invocation, with its action and request. */
    ghost var invocations: seq<(string, XCallbackRequest)>

    constructor (requestHandler: Launcher)
      ensures handlers == map[] && !disableSchemeQuerying
      ensures this.requestHandler == requestHandler && invocations == []
    {
      handlers := map[];
      disableSchemeQuerying := false;
      this.requestHandler := requestHandler;
      invocations := [];
    }

    /** `canHandle(_:)`: the value converts and a handler is registered for
      its action; a conversion failure answers `false`. */
    function CanHandle(x: Convertible): (can: bool)
      reads this
      ensures can ==> AsXCallbackRequest(x).Success? && AsXCallbackRequest(x).value.action in handlers
      ensures x.FromRequest? && x.request.action in handlers ==> can
      ensures x.AlwaysThrows? ==> !can
    {
      var converted := AsXCallbackRequest(x);
      converted.Success? && converted.value.action in handlers
    }

    /** `registerActionHandler(_:_:)`: registers, or replaces, the handler of
        one action; afterwards exactly the values converting to that action
        become handleable in addition to those already handleable. */
    method RegisterActionHandler(action: string, handler: ActionHandler)
      modifies this
      ensures handlers == old(handlers)[action := handler]
      ensures disableSchemeQuerying == old(disableSchemeQuerying) && invocations == old(invocations)
      ensures forall x :: CanHandle(x) <==>
        old(CanHandle(x)) || (AsXCallbackRequest(x).Success? && AsXCallbackRequest(x).value.action == action)
    {
      handlers := handlers[action := handler];
    }

    /** `send(_:)`: converts and encodes the request, then opens it when the
        launcher can open it or querying is disabled; otherwise reports that
        no application is registered for the target scheme. */
    method Send(x: Convertible) returns (res: Outcome<Error>, ghost order: seq<string>)
      modifies requestHandler
      ensures AsXCallbackRequest(x).Success? ==> IsEnumeration(order, AsXCallbackRequest(x).value.parameters.Keys)
      ensures res == SendEffect(x, order, requestHandler.canOpen, disableSchemeQuerying).0
      ensures requestHandler.launched
           == old(requestHandler.launched) + SendEffect(x, order, requestHandler.canOpen, disableSchemeQuerying).1
    {
      order := [];
      var converted := AsXCallbackRequest(x);
      if converted.Failure? {
        return Fail(converted.error), order;
      }
      var request := converted.value;
      var keys := DictionaryOrder(request.parameters);
      order := keys;
      var url := AsUrl(request, keys);
      if url.Failure? {
        return Fail(url.error), order;
      }
      if requestHandler.canOpen(url.value) || disableSchemeQuerying {
        requestHandler.Open(url.value);
        res := Pass;
      } else {
        res := Fail(ConfigurationFailure(UnregisteredApplicationScheme(request.targetScheme)));
      }
    }

    /** `handle(_:)`: converts the value, invokes the handler of its action
        once, and opens the return request the response calls for. */
    method Handle(x: Convertible) returns (res: Outcome<Error>, ghost order: seq<string>)
      modifies this`invocations, requestHandler
      ensures res.Pass? <==> old(CanHandle(x))
      ensures AsXCallbackRequest(x).Failure? ==> res == Fail(AsXCallbackRequest(x).error)
      ensures AsXCallbackRequest(x).Success? && AsXCallbackRequest(x).value.action !in handlers ==>
        res == Fail(HandlerFailure(MissingActionHandler(AsXCallbackRequest(x).value.action)))
      ensures res.Fail? ==> invocations == old(invocations) && requestHandler.launched == old(requestHandler.launched)
      ensures res.Pass? ==>
        var request := AsXCallbackRequest(x).value;
        var ret := ComposeReturn(request, handlers[request.action].respond(request));
        && invocations == old(invocations) + [(request.action, request)]
        && (ret.Some? ==> IsEnumeration(order, ret.value.parameters.Keys))
        && requestHandler.launched == old(requestHandler.launched) + ReturnLaunch(ret, order)
    {
      order := [];
      var converted := AsXCallbackRequest(x);
      if converted.Failure? {
        return Fail(converted.error), order;
      }
      var request := converted.value;
      var action := request.action;
      if action !in handlers {
        return Fail(HandlerFailure(MissingActionHandler(action))), order;
      }
      var handler := handlers[action];
      invocations := invocations + [(action, request)];
      var response := handler.respond(request);
      order := HandleResponse(request, response);
      res := Pass;
    }

    /** The completion of `handle(_:)`: composes the return request and
        opens it if it encodes; with no return request nothing is opened. */
    method HandleResponse(request: XCallbackRequest, response: R.XCallbackResponse) returns (ghost order: seq<string>)
      modifies requestHandler
      ensures ComposeReturn(request, response).Some? ==>
        IsEnumeration(order, ComposeReturn(request, response).value.parameters.Keys)
      ensures requestHandler.launched == old(requestHandler.launched) + ReturnLaunch(ComposeReturn(request, response), order)
    {
      var responseUrl := Compose(request, response);
      order := OpenReturn(responseUrl);
    }

    /** The end of the completion: encodes the return request, if there is
        one, and opens it if it encodes. */
    method OpenReturn(responseUrl: Option<XCallbackRequest>) returns (ghost order: seq<string>)
      modifies requestHandler
      ensures responseUrl.Some? ==> IsEnumeration(order, responseUrl.value.parameters.Keys)
      ensures requestHandler.launched == old(requestHandler.launched) + ReturnLaunch(responseUrl, order)
    {
      order := [];
      if responseUrl.Some? {
        var keys := DictionaryOrder(responseUrl.value.parameters);
        order := keys;
        var url := AsUrl(responseUrl.value, keys);
        if url.Success? {
          requestHandler.Open(url.value);
        }
      }
    }
  }

  /** The part of the completion that picks and augments the return
      request, as the source writes it. */
  method Compose(request: XCallbackRequest, response: R.XCallbackResponse) returns (responseUrl: Option<XCallbackRequest>)
    ensures responseUrl == ComposeReturn(request, response)
  {
    responseUrl := None;
    if response.isSuccess {
      responseUrl := XSuccess(request);
      if responseUrl.Some? && response.parameters.Some? {
        var ret := AddAll(responseUrl.value, response.parameters.value);
        responseUrl := Some(ret);
      }
    } else if response.isCancel {
      responseUrl := XCancel(request);
    } else if response.errorCode.Some? && response.errorMessage.Some? {
      responseUrl := XError(request);
      if responseUrl.Some? {
        var ret := AddParameter(responseUrl.value, P.ErrorCodeKey, IntToString(response.errorCode.value));
        responseUrl := Some(AddParameter(ret, P.ErrorMessageKey, response.errorMessage.value));
      }
    }
  }

  /** `for (key, value) in parameters { addParameter(key, value) }`: adds
      every entry, in whatever order the dictionary yields them. */
  method AddAll(r: XCallbackRequest, p: map<string, string>) returns (r': XCallbackRequest)
    ensures r' == r.(parameters := r.parameters + p)
  {
    r' := r;
    var remaining := p.Keys;
    while remaining != {}
      invariant remaining <= p.Keys
      invariant r'.targetScheme == r.targetScheme && r'.action == r.action
      invariant PartlyMerged(r.parameters, p, remaining, r'.parameters)
      decreases |remaining|
    {
      var k :| k in remaining;
      r' := r'.(parameters := r'.parameters[k := p[k]]);
      remaining := remaining - {k};
    }
    MergedMap(r.parameters, p, r'.parameters);
  }

  /** `d` is `m` with the entries of `p` outside `remaining` written over it. */
  ghost predicate PartlyMerged(m: map<string, string>, p: map<string, string>, remaining: set<string>, d: map<string, string>) {
    forall k ::
      && (k in d <==> k in m || (k in p && k !in remaining))
      && (k in d ==> d[k] == if k in p && k !in remaining then p[k] else m[k])
  }

  lemma MergedMap(m: map<string, string>, p: map<string, string>, d: map<string, string>)
    requires PartlyMerged(m, p, {}, d)
    ensures d == m + p
  {
    assert d.Keys == (m + p).Keys;
  }
}
