/** The error taxonomy: four kinds of failure, each with a nested reason that
    has a stable integer code and a human-readable description.

    `C` is the type of the value an invalid x-callback-url is reported with
    (anything convertible to a request); it is a parameter so that this
    module does not depend on the request model. How Swift renders such a
    value inside a description (`String(describing:)`) is left to the caller
    as the function `show`. */
module Errors {
  import opened Wrappers
  import opened Text

  /** Any other error that exposes a code and a description, such as an
      `NSError`; `describing` is what `String(describing:)` yields for it. */
  datatype ErrorReason = ErrorReason(code: int, description: string, describing: string)

  datatype ConfigurationFailureReason =
    | UnregisteredApplicationScheme(scheme: string)

  datatype MalformedRequestReason<C> =
    | InvalidXCallbackURL(xCallbackURL: C)
    | InvalidScheme(expectedScheme: string)
    | MissingScheme
    | MissingAction
    | MissingSourceApp
    | MissingRequiredProperty(propertyName: string)

  datatype HandlerFailureReason =
    | ResourceNotFound(resourceID: string)
    | MissingActionHandler(expectedAction: string)
    | GenericActionFailure(underlyingReason: ErrorReason)

  datatype XCallbackError<C> =
    | ConfigurationFailure(configurationReason: ConfigurationFailureReason)
    | MalformedRequest(malformedReason: MalformedRequestReason<C>)
    | HandlerFailure(handlerReason: HandlerFailureReason)
    | UnknownFailure(unknownReason: ErrorReason)

  // ---------------------------------------------------------------------------
  // Codes
  // ---------------------------------------------------------------------------

  function ConfigurationCode(reason: ConfigurationFailureReason): int {
    match reason
    case UnregisteredApplicationScheme(_) => 1200
  }

  function MalformedCode<C>(reason: MalformedRequestReason<C>): (code: int)
    ensures 1300 <= code <= 1321
  {
    match reason
    case InvalidXCallbackURL(_) => 1300
    case InvalidScheme(_) => 1301
    case MissingScheme => 1305
    case MissingAction => 1310
    case MissingSourceApp => 1320
    case MissingRequiredProperty(_) => 1321
  }

  function HandlerCode(reason: HandlerFailureReason): (code: int)
    ensures !reason.GenericActionFailure? ==> 1404 <= code <= 1501
  {
    match reason
    case ResourceNotFound(_) => 1501
    case MissingActionHandler(_) => 1404
    case GenericActionFailure(underlying) => underlying.code
  }

  /** The code of an error is the code of its reason. */
  function Code<C>(error: XCallbackError<C>): (code: int)
    ensures error.MalformedRequest? ==> 1300 <= code < 1400
    ensures !error.UnknownFailure? && !(error.HandlerFailure? && error.handlerReason.GenericActionFailure?)
      ==> 1200 <= code <= 1501
  {
    match error
    case ConfigurationFailure(reason) => ConfigurationCode(reason)
    case MalformedRequest(reason) => MalformedCode(reason)
    case HandlerFailure(reason) => HandlerCode(reason)
    case UnknownFailure(reason) => reason.code
  }

  // ---------------------------------------------------------------------------
  // Descriptions
  // ---------------------------------------------------------------------------

  function ConfigurationDescription(reason: ConfigurationFailureReason): string {
    match reason
    case UnregisteredApplicationScheme(scheme) =>
      "No installed application is registered for the scheme " + scheme
  }

  function MalformedDescription<C>(reason: MalformedRequestReason<C>, show: C -> string): (d: string)
    ensures reason.InvalidXCallbackURL? ==>
      "Could not convert " + show(reason.xCallbackURL) <= d
    ensures reason.InvalidScheme? ==>
      var e := reason.expectedScheme; |e| <= |d| && d[|d| - |e|..] == e
    ensures reason.MissingRequiredProperty? ==>
      "The `" + reason.propertyName <= d
  {
    match reason
    case InvalidXCallbackURL(callback) => "Could not convert " + show(callback) + " to a valid x-callback-url"
    case InvalidScheme(scheme) => "The provide scheme does not match the expected scheme, " + scheme
    case MissingScheme => "X-Callbacks require a scheme."
    case MissingAction => "X-Callbacks require an action."
    case MissingSourceApp => "The `sourceApp` property is required."
    case MissingRequiredProperty(propertyName) => "The `" + propertyName + "` property is required."
  }

  function HandlerDescription(reason: HandlerFailureReason): (d: string)
    ensures reason.ResourceNotFound? ==>
      var id := reason.resourceID; |id| <= |d| && d[|d| - |id|..] == id
    ensures reason.MissingActionHandler? ==>
      var a := reason.expectedAction; |a| <= |d| && d[|d| - |a|..] == a
    ensures reason.GenericActionFailure? ==> d == reason.underlyingReason.description
  {
    match reason
    case ResourceNotFound(resourceID) => "Could not locate resource with id of " + resourceID
    case MissingActionHandler(actionName) => "Missing expected action handler for action " + actionName
    case GenericActionFailure(underlying) => underlying.description
  }

  /** The description of an error is the description of its reason. */
  function Description<C>(error: XCallbackError<C>, show: C -> string): (d: string)
    ensures !error.UnknownFailure? && !(error.HandlerFailure? && error.handlerReason.GenericActionFailure?)
      ==> |d| > 20
  {
    match error
    case ConfigurationFailure(reason) => ConfigurationDescription(reason)
    case MalformedRequest(reason) => MalformedDescription(reason, show)
    case HandlerFailure(reason) => HandlerDescription(reason)
    case UnknownFailure(reason) => reason.description
  }

  /** `debugDescription` of a reason: `Code: <code>; Reason: <description>`.
      It is also what `String(describing:)` yields for a reason, since the
      reasons are debug-printable but not otherwise printable. */
  function ReasonDebugDescription(code: int, description: string): (d: string)
    ensures "Code: " <= d
    ensures |d| == 16 + |IntToString(code)| + |description|
  {
    "Code: " + IntToString(code) + "; Reason: " + description
  }

  /** The words a debug description opens with, naming the kind of failure. */
  function KindPrefix<C>(error: XCallbackError<C>): string {
    match error
    case ConfigurationFailure(_) => "Configuration Failure Error: "
    case MalformedRequest(_) => "Malformed Request Error: "
    case HandlerFailure(_) => "Internal Handler Error: "
    case UnknownFailure(_) => "Unknown Failure Error: "
  }

  /** `debugDescription` of an error: a prefix naming the kind, then the reason. */
  function DebugDescription<C>(error: XCallbackError<C>, show: C -> string): (d: string)
    ensures KindPrefix(error) <= d
    ensures error.UnknownFailure? ==> d[|KindPrefix(error)|..] == error.unknownReason.describing
  {
    match error
    case ConfigurationFailure(reason) =>
      "Configuration Failure Error: " + ReasonDebugDescription(ConfigurationCode(reason), ConfigurationDescription(reason))
    case MalformedRequest(reason) =>
      "Malformed Request Error: " + ReasonDebugDescription(MalformedCode(reason), MalformedDescription(reason, show))
    case HandlerFailure(reason) =>
      "Internal Handler Error: " + ReasonDebugDescription(HandlerCode(reason), HandlerDescription(reason))
    case UnknownFailure(reason) =>
      "Unknown Failure Error: " + reason.describing
  }

  // ---------------------------------------------------------------------------
  // Properties
  // ---------------------------------------------------------------------------

  /** The stable codes of every reason that does not delegate. */
  lemma StableCodes<C>(c: C, s: string)
    ensures Code<C>(ConfigurationFailure(UnregisteredApplicationScheme(s))) == 1200
    ensures Code(MalformedRequest(InvalidXCallbackURL(c))) == 1300
    ensures Code<C>(MalformedRequest(InvalidScheme(s))) == 1301
    ensures Code<C>(MalformedRequest(MissingScheme)) == 1305
    ensures Code<C>(MalformedRequest(MissingAction)) == 1310
    ensures Code<C>(MalformedRequest(MissingSourceApp)) == 1320
    ensures Code<C>(MalformedRequest(MissingRequiredProperty(s))) == 1321
    ensures Code<C>(HandlerFailure(ResourceNotFound(s))) == 1501
    ensures Code<C>(HandlerFailure(MissingActionHandler(s))) == 1404
  {
  }

  /** A generic handler failure and an unknown failure both report the
      underlying error's own code and description, verbatim. */
  lemma DelegatingReasons<C>(underlying: ErrorReason, show: C -> string)
    ensures Code<C>(HandlerFailure(GenericActionFailure(underlying))) == underlying.code
    ensures Code<C>(UnknownFailure(underlying)) == underlying.code
    ensures Description<C>(HandlerFailure(GenericActionFailure(underlying)), show) == underlying.description
    ensures Description<C>(UnknownFailure(underlying), show) == underlying.description
  {
  }

  /** The debug description names the kind of failure first. */
  lemma DebugDescriptionPrefix<C>(error: XCallbackError<C>, show: C -> string)
    ensures var d := DebugDescription(error, show);
      match error
      case ConfigurationFailure(_) => d[..29] == "Configuration Failure Error: "
      case MalformedRequest(_) => d[..25] == "Malformed Request Error: "
      case HandlerFailure(_) => d[..24] == "Internal Handler Error: "
      case UnknownFailure(_) => d[..23] == "Unknown Failure Error: "
  {
  }

  /** A reason's debug description carries its code in decimal after `Code: `. */
  lemma ReasonDebugDescriptionCarriesCode(code: int, description: string)
    ensures var d := ReasonDebugDescription(code, description);
      var n := |IntToString(code)|;
      6 + n <= |d| && d[..6] == "Code: " && ParseInt(d[6..6 + n]) == Some(code)
  {
    var d := ReasonDebugDescription(code, description);
    var n := |IntToString(code)|;
    IntToStringRoundTrip(code);
    assert d == "Code: " + IntToString(code) + ("; Reason: " + description);
    assert d[6..6 + n] == IntToString(code);
  }

  /** The debug description of an error that is not an unknown failure is
      its kind followed by its reason's debug description, which carries the
      error's code and description. */
  lemma DebugDescriptionCarriesCode<C>(error: XCallbackError<C>, show: C -> string)
    requires !error.UnknownFailure?
    ensures DebugDescription(error, show)
         == KindPrefix(error) + ReasonDebugDescription(Code(error), Description(error, show))
  {
  }

  /** The code can be read back from the debug description: after the kind
      and `Code: ` come exactly the decimal digits of the error's code. */
  lemma DebugDescriptionCode<C>(error: XCallbackError<C>, show: C -> string)
    requires !error.UnknownFailure?
    ensures var d := DebugDescription(error, show);
      var k := |KindPrefix(error)|;
      var n := |IntToString(Code(error))|;
      && k + 6 + n <= |d|
      && d[..k] == KindPrefix(error)
      && d[k..k + 6] == "Code: "
      && ParseInt(d[k + 6..k + 6 + n]) == Some(Code(error))
  {
    DebugDescriptionCarriesCode(error, show);
    PrefixedReasonCarriesCode(KindPrefix(error), Code(error), Description(error, show));
  }

  lemma PrefixedReasonCarriesCode(prefix: string, code: int, description: string)
    ensures var d := prefix + ReasonDebugDescription(code, description);
      var k := |prefix|;
      var n := |IntToString(code)|;
      && k + 6 + n <= |d|
      && d[..k] == prefix
      && d[k..k + 6] == "Code: "
      && ParseInt(d[k + 6..k + 6 + n]) == Some(code)
  {
    var reason := ReasonDebugDescription(code, description);
    ReasonDebugDescriptionCarriesCode(code, description);
    var n := |IntToString(code)|;
    SliceAfterPrefix(prefix, reason, 0, 6);
    SliceAfterPrefix(prefix, reason, 6, 6 + n);
  }

  lemma SliceAfterPrefix(a: string, b: string, i: nat, j: nat)
    requires i <= j <= |b|
    ensures (a + b)[..|a|] == a
    ensures (a + b)[|a| + i..|a| + j] == b[i..j]
  {
  }
}
