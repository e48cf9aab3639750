/** `asXCallbackRequest()`: how each convertible value becomes a request. */
module Conversion {
  import opened Wrappers
  import opened Errors
  import opened Requests

  /** A request is returned as it is, a URL is decoded, and the throwing
      value reports itself as an invalid x-callback-url. */
  function AsXCallbackRequest(x: Convertible): (res: Result<XCallbackRequest, Error>)
    ensures x.FromRequest? ==> res == Success(x.request)
    ensures x.FromURL? ==> res == InitWithUrl(x.url)
    ensures x.AlwaysThrows? ==> res == Failure(MalformedRequest(InvalidXCallbackURL(AlwaysThrows)))
  {
    match x
    case FromRequest(r) => Success(r)
    case FromURL(url) => InitWithUrl(url)
    case AlwaysThrows => Failure(MalformedRequest(InvalidXCallbackURL(x)))
  }

  /** Conversion fails only with a malformed request: a URL without a scheme
      or an action, or the value that always throws. A request never fails. */
  lemma ConversionFailures(x: Convertible)
    ensures AsXCallbackRequest(x).Failure? ==> AsXCallbackRequest(x).error.MalformedRequest?
    ensures AsXCallbackRequest(x).Failure? && x.FromURL? ==>
      AsXCallbackRequest(x).error.malformedReason in {MissingScheme, MissingAction}
    ensures x.FromRequest? ==> AsXCallbackRequest(x).Success?
    ensures x.AlwaysThrows? ==> AsXCallbackRequest(x).Failure?
  {
  }
}
