/** The outcome a handler reports: optional parameters, an optional error
    code and message, and two flags. The struct is kept as written, with its
    fields independent of one another; the three constructors produce its
    only intended shapes. */
module Responses {
  import opened Wrappers

  datatype XCallbackResponse = XCallbackResponse(
    parameters: Option<map<string, string>>,
    errorCode: Option<int>,
    errorMessage: Option<string>,
    isSuccess: bool,
    isCancel: bool)

  /** The response carries an error code and an error message. */
  predicate CarriesError(response: XCallbackResponse) {
    response.errorCode.Some? && response.errorMessage.Some?
  }

  /** Exactly one of: success, cancellation, error with code and message. */
  predicate HasOneShape(response: XCallbackResponse) {
    (response.isSuccess && !response.isCancel && !CarriesError(response))
    || (!response.isSuccess && response.isCancel && !CarriesError(response))
    || (!response.isSuccess && !response.isCancel && CarriesError(response))
  }

  function Success(parameters: map<string, string>): (response: XCallbackResponse)
    ensures response.parameters == Some(parameters)
    ensures response.isSuccess && !response.isCancel
    ensures response.errorCode.None? && response.errorMessage.None?
  {
    XCallbackResponse(Some(parameters), None, None, true, false)
  }

  function Error(code: int, message: string): (response: XCallbackResponse)
    ensures response.errorCode == Some(code) && response.errorMessage == Some(message)
    ensures response.parameters.None?
    ensures !response.isSuccess && !response.isCancel
  {
    XCallbackResponse(None, Some(code), Some(message), false, false)
  }

  function Cancel(): (response: XCallbackResponse)
    ensures response.parameters.None? && response.errorCode.None? && response.errorMessage.None?
    ensures !response.isSuccess && response.isCancel
  {
    XCallbackResponse(None, None, None, false, true)
  }

  /** Every response the constructors build has exactly one shape, and the
      shape says which constructor built it. */
  lemma ConstructorsHaveOneShape(parameters: map<string, string>, code: int, message: string)
    ensures HasOneShape(Success(parameters)) && Success(parameters).isSuccess
    ensures HasOneShape(Error(code, message)) && CarriesError(Error(code, message))
    ensures HasOneShape(Cancel()) && Cancel().isCancel
  {
  }

  /** The shapes are told apart by the flags alone. */
  lemma ShapesAreDistinct(parameters: map<string, string>, code: int, message: string)
    ensures Success(parameters) != Error(code, message)
    ensures Success(parameters) != Cancel()
    ensures Error(code, message) != Cancel()
  {
  }
}
