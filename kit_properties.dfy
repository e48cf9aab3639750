/** What the engine promises: `send` consults the launcher only for a
    request that converts and encodes, and the querying switch is the only
    gate beyond that; a handler's response selects its return address with
    success first, then cancellation, then error, and the return request
    arrives at the caller with the parameters the response carries. */
module KitProperties {
  import opened Wrappers
  import opened Text
  import opened Urls
  import opened Errors
  import opened Requests
  import opened RequestProperties
  import opened Conversion
  import opened Kit
  import R = Responses
  import P = Parameters

  // ---------------------------------------------------------------------------
  // Sending
  // ---------------------------------------------------------------------------

  /** Conversion and encoding errors come back unchanged, before the
      launcher is consulted, and nothing is opened. */
  lemma SendPropagatesErrors(x: Convertible, order: seq<string>, canOpen: UrlParts -> bool, disable: bool)
    requires AsXCallbackRequest(x).Success? ==> IsEnumeration(order, AsXCallbackRequest(x).value.parameters.Keys)
    ensures AsXCallbackRequest(x).Failure? ==>
      SendEffect(x, order, canOpen, disable) == (Fail(AsXCallbackRequest(x).error), [])
    ensures AsXCallbackRequest(x).Success? && AsUrl(AsXCallbackRequest(x).value, order).Failure? ==>
      SendEffect(x, order, canOpen, disable)
      == (Fail(MalformedRequest(InvalidXCallbackURL(FromRequest(AsXCallbackRequest(x).value)))), [])
    ensures x.AlwaysThrows? ==>
      SendEffect(x, order, canOpen, disable) == (Fail(MalformedRequest(InvalidXCallbackURL(AlwaysThrows))), [])
  {
  }

  /** With querying disabled a request that converts and encodes is always
      opened: the configuration failure cannot occur. */
  lemma DisabledQueryingAlwaysOpens(x: Convertible, order: seq<string>, canOpen: UrlParts -> bool)
    requires AsXCallbackRequest(x).Success? ==> IsEnumeration(order, AsXCallbackRequest(x).value.parameters.Keys)
    ensures SendEffect(x, order, canOpen, true).0.Pass? <==>
      AsXCallbackRequest(x).Success? && AsUrl(AsXCallbackRequest(x).value, order).Success?
    ensures SendEffect(x, order, canOpen, true).0.Fail? ==>
      !SendEffect(x, order, canOpen, true).0.error.ConfigurationFailure?
  {
  }

  /** The only difference querying makes: where the disabled kit opens a URL
      the launcher cannot open, the querying kit fails with code 1200, naming
      the target scheme, and opens nothing. */
  lemma QueryingGate(x: Convertible, order: seq<string>, canOpen: UrlParts -> bool)
    requires AsXCallbackRequest(x).Success? ==> IsEnumeration(order, AsXCallbackRequest(x).value.parameters.Keys)
    ensures SendEffect(x, order, canOpen, false).0.Pass? ==> SendEffect(x, order, canOpen, true) == SendEffect(x, order, canOpen, false)
    ensures SendEffect(x, order, canOpen, true).0.Pass? && SendEffect(x, order, canOpen, false).0.Fail? ==>
      var e := SendEffect(x, order, canOpen, false);
      && !canOpen(SendEffect(x, order, canOpen, true).1[0])
      && e == (Fail(ConfigurationFailure(UnregisteredApplicationScheme(AsXCallbackRequest(x).value.targetScheme))), [])
      && Code(e.0.error) == 1200
  {
  }

  /** A request made of plain parts is opened when the launcher can open it
      or querying is disabled, as the one URL that decodes back to it. */
  lemma SendPlainRequest(r: XCallbackRequest, order: seq<string>, canOpen: UrlParts -> bool, disable: bool)
    requires IsEnumeration(order, r.parameters.Keys)
    requires ValidScheme(r.targetScheme) && IsPlainAction(r.action)
    requires forall k :: k in r.parameters ==> IsPlainText(k) && IsPlainText(r.parameters[k])
    ensures AsUrl(r, order).Success?
    ensures var effect := SendEffect(FromRequest(r), order, canOpen, disable);
      (effect.0.Pass? <==> canOpen(AsUrl(r, order).value) || disable)
      && (effect.0.Pass? ==> effect.1 == [AsUrl(r, order).value] && InitWithUrl(effect.1[0]) == Success(r))
      && (effect.0.Fail? ==> effect.0.error == ConfigurationFailure(UnregisteredApplicationScheme(r.targetScheme)))
  {
    RoundTrip(r, order);
  }

  // ---------------------------------------------------------------------------
  // Looking up handlers
  // ---------------------------------------------------------------------------

  /** `canHandle` answers from the converted action; a value that does not
      convert cannot be handled. */
  lemma CanHandleCases(kit: XCallbackKit, x: Convertible)
    ensures x.FromRequest? ==> (kit.CanHandle(x) <==> x.request.action in kit.handlers)
    ensures x.FromURL? ==> (kit.CanHandle(x) <==>
      InitWithUrl(x.url).Success? && InitWithUrl(x.url).value.action in kit.handlers)
    ensures x.AlwaysThrows? ==> !kit.CanHandle(x)
    ensures AsXCallbackRequest(x).Failure? ==> !kit.CanHandle(x)
  {
  }

  // ---------------------------------------------------------------------------
  // Composing the return request
  // ---------------------------------------------------------------------------

  /** Success takes precedence over cancellation, and cancellation over an
      error: the fields of a lower branch are never consulted. A response
      with neither flag and without both code and message asks for no
      return. */
  lemma ComposePrecedence(request: XCallbackRequest, response: R.XCallbackResponse)
    ensures response.isSuccess ==>
      ComposeReturn(request, response)
      == ComposeReturn(request, response.(isCancel := false, errorCode := None, errorMessage := None))
    ensures !response.isSuccess && response.isCancel ==>
      ComposeReturn(request, response) == XCancel(request)
    ensures !response.isSuccess && !response.isCancel && !R.CarriesError(response) ==>
      ComposeReturn(request, response) == None
    ensures !response.isSuccess && !response.isCancel ==>
      ComposeReturn(request, response) == ComposeReturn(request, response.(parameters := None))
  {
  }

  /** A success response returns to `x-success` with its parameters added,
      each overwriting a parameter of the same name. */
  lemma SuccessReturn(request: XCallbackRequest, parameters: map<string, string>)
    ensures ComposeReturn(request, R.Success(parameters)).Some? <==> XSuccess(request).Some?
    ensures XSuccess(request).Some? ==>
      var base := XSuccess(request).value;
      var ret := ComposeReturn(request, R.Success(parameters)).value;
      && ret.targetScheme == base.targetScheme && ret.action == base.action
      && (forall k :: k in ret.parameters <==> k in base.parameters || k in parameters)
      && (forall k :: k in parameters ==> ret.parameters[k] == parameters[k])
      && (forall k :: k in base.parameters && k !in parameters ==> ret.parameters[k] == base.parameters[k])
  {
  }

  /** A cancel response returns to `x-cancel` unmodified. */
  lemma CancelReturn(request: XCallbackRequest)
    ensures ComposeReturn(request, R.Cancel()) == XCancel(request)
  {
  }

  /** An error response returns to `x-error` with the code in decimal and
      the message added; everything else, the reserved `x-` keys included,
      is left as it was. */
  lemma ErrorReturn(request: XCallbackRequest, code: int, message: string)
    ensures ComposeReturn(request, R.Error(code, message)).Some? <==> XError(request).Some?
    ensures XError(request).Some? ==>
      var base := XError(request).value;
      var ret := ComposeReturn(request, R.Error(code, message)).value;
      && ret.targetScheme == base.targetScheme && ret.action == base.action
      && P.ErrorCodeKey in ret.parameters && ParseInt(ret.parameters[P.ErrorCodeKey]) == Some(code)
      && P.ErrorMessageKey in ret.parameters && ret.parameters[P.ErrorMessageKey] == message
      && (forall k :: k != P.ErrorCodeKey && k != P.ErrorMessageKey ==>
            (k in ret.parameters <==> k in base.parameters)
            && (k in base.parameters ==> ret.parameters[k] == base.parameters[k]))
      && (forall k :: k in P.ReservedKeys() ==>
            (k in ret.parameters <==> k in base.parameters)
            && (k in base.parameters ==> ret.parameters[k] == base.parameters[k]))
  {
    IntToStringRoundTrip(code);
    P.KeysDistinct();
  }

  /** Without the return address the response selects, nothing is opened. */
  lemma NoReturnAddressOpensNothing(request: XCallbackRequest, response: R.XCallbackResponse, order: seq<string>)
    requires response.isSuccess ==> P.SuccessKey !in request.parameters
    requires !response.isSuccess && response.isCancel ==> P.CancelKey !in request.parameters
    requires !response.isSuccess && !response.isCancel ==> P.ErrorKey !in request.parameters
    ensures ComposeReturn(request, response) == None
    ensures ReturnLaunch(ComposeReturn(request, response), order) == []
  {
  }

  /** The return request of a successful action reaches `scheme://x-callback-url/action`
      named by `x-success`, carrying exactly the response's parameters. */
  lemma SuccessArrives(r: XCallbackRequest, scheme: string, action: string,
                       parameters: map<string, string>, order: seq<string>)
    requires ValidScheme(scheme) && IsPlainAction(action)
    requires forall k :: k in parameters ==> IsPlainText(k) && IsPlainText(parameters[k])
    requires IsEnumeration(order, parameters.Keys)
    ensures ComposeReturn(AddXSuccessAction(r, scheme, action), R.Success(parameters))
         == Some(XCallbackRequest(scheme, action, parameters))
    ensures var urls := ReturnLaunch(Some(XCallbackRequest(scheme, action, parameters)), order);
      |urls| == 1 && InitWithUrl(urls[0]) == Success(XCallbackRequest(scheme, action, parameters))
  {
    SuccessComposed(r, scheme, action, parameters);
    RoundTrip(XCallbackRequest(scheme, action, parameters), order);
  }

  lemma SuccessComposed(r: XCallbackRequest, scheme: string, action: string, parameters: map<string, string>)
    requires ValidScheme(scheme) && IsPlainAction(action)
    ensures ComposeReturn(AddXSuccessAction(r, scheme, action), R.Success(parameters))
         == Some(XCallbackRequest(scheme, action, parameters))
  {
    ReturnAddressDecodes(AddXSuccessAction(r, scheme, action), P.SuccessKey, scheme, action);
    assert XSuccess(AddXSuccessAction(r, scheme, action)) == Some(XCallbackRequest(scheme, action, map[]));
    assert map[] + parameters == parameters;
  }

  /** The return request of a failed action reaches the address named by
      `x-error`, carrying the code and the message and nothing else. */
  lemma ErrorArrives(r: XCallbackRequest, scheme: string, action: string,
                     code: int, message: string, order: seq<string>)
    requires ValidScheme(scheme) && IsPlainAction(action) && IsPlainText(message)
    requires IsEnumeration(order, {P.ErrorCodeKey, P.ErrorMessageKey})
    ensures ComposeReturn(AddXErrorAction(r, scheme, action), R.Error(code, message))
         == Some(XCallbackRequest(scheme, action, ErrorPayload(code, message)))
    ensures var ret := XCallbackRequest(scheme, action, ErrorPayload(code, message));
      var urls := ReturnLaunch(Some(ret), order);
      |urls| == 1 && InitWithUrl(urls[0]) == Success(ret)
  {
    ErrorComposed(r, scheme, action, code, message);
    ErrorPayloadPlain(code, message);
    RoundTrip(XCallbackRequest(scheme, action, ErrorPayload(code, message)), order);
  }

  /** The parameters of an error return to a fresh `x-error` address. */
  function ErrorPayload(code: int, message: string): map<string, string> {
    map[P.ErrorCodeKey := IntToString(code), P.ErrorMessageKey := message]
  }

  lemma ErrorComposed(r: XCallbackRequest, scheme: string, action: string, code: int, message: string)
    requires ValidScheme(scheme) && IsPlainAction(action)
    ensures ComposeReturn(AddXErrorAction(r, scheme, action), R.Error(code, message))
         == Some(XCallbackRequest(scheme, action, ErrorPayload(code, message)))
  {
    ReturnAddressDecodes(AddXErrorAction(r, scheme, action), P.ErrorKey, scheme, action);
    assert XError(AddXErrorAction(r, scheme, action)) == Some(XCallbackRequest(scheme, action, map[]));
  }

  lemma ErrorPayloadPlain(code: int, message: string)
    requires IsPlainText(message)
    ensures ErrorPayload(code, message).Keys == {P.ErrorCodeKey, P.ErrorMessageKey}
    ensures forall k :: k in ErrorPayload(code, message) ==> IsPlainText(k) && IsPlainText(ErrorPayload(code, message)[k])
  {
    DecimalIsPlain(code);
    ErrorKeysPlain();
  }

  lemma ErrorKeysPlain()
    ensures IsPlainText(P.ErrorCodeKey) && IsPlainText(P.ErrorMessageKey)
  {
    assert P.ErrorCodeKey == ['e', 'r', 'r', 'o', 'r', 'C', 'o', 'd', 'e'];
    assert P.ErrorMessageKey == ['e', 'r', 'r', 'o', 'r', 'M', 'e', 's', 's', 'a', 'g', 'e'];
  }

  /** The return request of a cancelled action reaches the address named by
      `x-cancel`, without parameters. */
  lemma CancelArrives(r: XCallbackRequest, scheme: string, action: string)
    requires ValidScheme(scheme) && IsPlainAction(action)
    ensures ComposeReturn(AddXCancelAction(r, scheme, action), R.Cancel()) == Some(XCallbackRequest(scheme, action, map[]))
    ensures var urls := ReturnLaunch(Some(XCallbackRequest(scheme, action, map[])), []);
      |urls| == 1 && InitWithUrl(urls[0]) == Success(XCallbackRequest(scheme, action, map[]))
  {
    ReturnAddressDecodes(AddXCancelAction(r, scheme, action), P.CancelKey, scheme, action);
    assert XCancel(AddXCancelAction(r, scheme, action)) == Some(XCallbackRequest(scheme, action, map[]));
    RoundTrip(XCallbackRequest(scheme, action, map[]), []);
  }

  /** A decimal rendering needs no escaping. */
  lemma DecimalIsPlain(n: int)
    ensures IsPlainText(IntToString(n))
  {
    var s := IntToString(n);
    forall i | 0 <= i < |s| ensures IsQueryAllowed(s[i]) {
      if n < 0 && i > 0 {
        assert s[1..][i - 1] == s[i];
      }
    }
  }
}
