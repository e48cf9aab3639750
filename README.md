# XCallbackKit in Dafny

A model of the protocol engine of XCallbackKit, a Swift implementation of the
x-callback-url 1.0 convention, with proofs about it.

Under that convention an application sends a request to another one as the URL
`scheme://x-callback-url/action?key=value&…`. The request may carry return
addresses under `x-success`, `x-error` and `x-cancel`. The receiving
application does four things:

- it decodes the URL;
- it dispatches the request to the handler registered for the action;
- it composes a return request from the handler's response;
- it launches that return request as a URL.

The model follows the library's `Source/` files one by one.

| module | file | models |
|---|---|---|
| `Parameters` | `parameters.dfy` | `XCallbackParameter`: the six reserved keys |
| `Errors` | `errors.dfy` | `XCallbackError`, its reasons, and their `code`, `description` and `debugDescription` |
| `Urls` | `urls.dfy` | the part of Foundation's `URL`, `URLComponents` and `addingPercentEncoding` the codec relies on |
| `Requests` | `requests.dfy` | `XCallbackRequest`: construction, parameters, return addresses, `init(url:)` and `asURL()` |
| `RequestProperties` | `request_properties.dfy` | lemmas about the request codec |
| `Responses` | `responses.dfy` | `XCallbackResponse` and its three constructors |
| `Conversion` | `conversion.dfy` | `XCallbackRequestConvertable`: a request, a URL, or the value that always throws |
| `Kit` | `kit.dfy` | `XCallbackKit`: registry, `send`, `canHandle`, `handle` and the response completion; the launcher |
| `KitProperties` | `kit_properties.dfy` | lemmas about the engine |
| `Text` | `text.dfy` | rendering of integers in decimal (Swift's `"\(errorCode)"`) and reading them back |
| `Wrappers` | `wrappers.dfy` | `Option`, `Result` and `Outcome` |

## How the Swift code is represented

- **`XCallbackRequest`** is a Swift struct, so it is a value. The model makes it
  a datatype holding a `map<string, string>`. Each `mutating` method becomes a
  function from the old value to the new one.
- **`init(url:)`** is modelled twice:
  - `Requests.InitWithUrl` is the pure specification;
  - `Requests.Decode` is the method with the source's loop over query items,
    and it is proved equal to `InitWithUrl`.
- **The kit** is a class:
  - `XCallbackKit` has the fields `handlers` and `disableSchemeQuerying`, and
    a ghost log of handler invocations;
  - `Launcher` stands for `XCallbackRequestHandling`. It has a fixed `canOpen`
    predicate and a ghost log, `launched`, of every URL it was asked to open;
  - a handler (`ActionHandler`) is a function from request to response. It
    answers synchronously, as the tests' `MockActionHandler` does.
- **The effect of `send` and `handle` on the log** is stated through pure
  functions:
  - `SendEffect` for `send`;
  - `ComposeReturn` for the request the completion composes;
  - `ReturnLaunch` for the URL it opens.
- **Dictionary iteration order** is left open, as Swift leaves it. `asURL()`
  walks `parameters` in an unspecified order, so `AsUrl` takes the order as an
  argument. The methods choose one with `DictionaryOrder` and return it as a
  ghost out-parameter. The decoded result is proved not to depend on the order.
- **The source application's name** becomes the parameter `sourceApp` of
  `Requests.Create`. In Swift it comes from `Bundle.main` through
  `XCallbackKit.sourceApp`.
- **A URL** is the record `UrlParts`. It holds:
  - the scheme;
  - the host;
  - the path as `URL.path` yields it, percent-decoded;
  - the query items as `URLComponents.queryItems` yields them, split and
    percent-decoded.

  `Urls.ParseUrl` plays the part of `URL(string:)` and follows RFC 3986:
  - scheme syntax as in section 3.1;
  - path and query characters as in sections 3.3 and 3.4;
  - the `%XY` escapes of section 2.1, for ASCII octets only (see "## Left out").
- **Where the code and its tests disagree, the model follows the code:**
  - the kit tests switch off scheme querying through `isSchemeQueryingEnabled`,
    which the class does not have; the model has `disableSchemeQuerying`;
  - the success-response test expects the return request to carry `x-source`,
    but a request decoded from a URL only carries its query parameters.
- **`configurationFailure(reason: .unregisteredApplicationScheme(scheme:))`**
  is thrown by `send` and has code 1200 in the error tests. `XCallbackError`
  in `XCallbackError.swift` does not declare that case. The model adds it with
  its reason and code 1200.

## Model

| member | source | states |
|---|---|---|
| `Parameters.ReservedKeys` | XCallbackKit/Source/XCallbackParameter.swift:15-21 | the four `x-` keys `x-source`, `x-success`, `x-error`, `x-cancel` are four different keys |
| `Parameters.KeysDistinct` | XCallbackKit/Source/XCallbackParameter.swift:15-25 | the six keys are pairwise distinct, and neither error payload key is a reserved `x-` key |
| `Errors.StableCodes` | XCallbackKit/Source/XCallbackError.swift:77-113 | the fixed codes: 1200 for an unregistered scheme, 1300/1301/1305/1310/1320/1321 for the malformed-request reasons, 1501 and 1404 for the handler reasons |
| `Errors.DelegatingReasons` | XCallbackKit/Source/XCallbackError.swift:48-62 | a generic action failure and an unknown failure report the underlying error's code and description verbatim |
| `Errors.MalformedCode` | XCallbackKit/Source/XCallbackError.swift:77-86 | every malformed-request code lies between 1300 and 1321 |
| `Errors.HandlerCode` | XCallbackKit/Source/XCallbackError.swift:107-113 | a handler reason that does not delegate has a code between 1404 and 1501 |
| `Errors.Code` | XCallbackKit/Source/XCallbackError.swift:48-54 | a malformed request has a code in the 1300s, and every error that does not delegate has a code between 1200 and 1501 |
| `Errors.MalformedDescription` | XCallbackKit/Source/XCallbackError.swift:88-103 | the description names the offending value: the convertible value after `Could not convert `, the expected scheme at the end, the property name after ``The ` `` |
| `Errors.HandlerDescription` | XCallbackKit/Source/XCallbackError.swift:114-123 | a missing resource ends with its id, a missing handler with its action, and a generic failure is the underlying error's description |
| `Errors.Description` | XCallbackKit/Source/XCallbackError.swift:56-62 | every error whose description is not borrowed from an underlying error describes itself in more than twenty characters, whatever its payload |
| `Errors.DebugDescriptionPrefix` | XCallbackKit/Source/XCallbackError.swift:64-73 | the debug description opens with `Malformed Request Error: `, `Internal Handler Error: `, `Unknown Failure Error: ` (or the configuration prefix) according to the kind |
| `Errors.ReasonDebugDescription` | XCallbackKit/Source/XCallbackError.swift:40-43 | a reason's debug description starts with `Code: ` and is sixteen characters longer than the decimal code and the description together |
| `Errors.DebugDescription` | XCallbackKit/Source/XCallbackError.swift:64-73 | the debug description starts with the words naming its kind; for an unknown failure the rest is how the underlying error describes itself |
| `Errors.ReasonDebugDescriptionCarriesCode` | XCallbackKit/Source/XCallbackError.swift:40-43 | a reason's debug description starts with `Code: ` followed by the decimal code, which reads back as the code |
| `Errors.DebugDescriptionCarriesCode` | XCallbackKit/Source/XCallbackError.swift:64-73 | the debug description of an error other than an unknown failure is its kind prefix followed by its reason's debug description, built from the error's own code and description |
| `Errors.DebugDescriptionCode` | XCallbackKit/Source/XCallbackError.swift:64-73 | the code can be read back from the debug description, after the kind prefix and `Code: ` |
| `Errors.PrefixedReasonCarriesCode` | XCallbackKit/Source/XCallbackError.swift:40-43 | a reason's debug description behind any prefix still carries `Code: ` and the decimal code at the expected offsets |
| `Text.IntToString` | XCallbackKit/Source/XCallbackKit.swift:100 | the decimal rendering of an integer is non-empty, all digits, with a leading `-` exactly for negative numbers |
| `Text.IntToStringRoundTrip` | XCallbackKit/Source/XCallbackKit.swift:100 | reading the decimal rendering of any integer gives the integer back |
| `Text.NatToStringValue` | XCallbackKit/Source/XCallbackKit.swift:100 | the digits of a natural number denote that number |
| `Urls.PercentEncode` | XCallbackKit/Source/XCallbackRequest.swift:164-169 | percent-encoding succeeds exactly on ASCII strings and never shortens them |
| `Urls.PercentEncodeIdentity` | XCallbackKit/Source/XCallbackRequest.swift:164-169 | encoding leaves a string unchanged if and only if every character is allowed unescaped in a query |
| `Urls.DecodeEncoded` | XCallbackKit/Source/XCallbackRequest.swift:164-172 | decoding undoes encoding on every string that can be encoded |
| `Urls.PercentEncodeInjective` | XCallbackKit/Source/XCallbackRequest.swift:164-169 | two strings with the same encoding are equal |
| `Urls.PercentDecode` | XCallbackKit/Source/XCallbackRequest.swift:149 | decoding never lengthens a string; `Urls.DecodeEncoded` states that it undoes encoding |
| `Urls.CaretsDoNotParse` | XCallbackKitTests/XCallbackRequestTests.swift:156-161 | `^^Invalid^^` is not a URL |
| `Urls.BarePathWithBadCharDoesNotParse` | XCallbackKit/Source/XCallbackRequest.swift:60 | a string without `:`, `/` or `?` that holds a character outside the path syntax is not a URL |
| `Urls.ParseSchemeHostPath` | XCallbackKit/Source/XCallbackRequest.swift:114 | the address `scheme://host/path`, with or without a trailing `?`, parses to exactly its parts |
| `Urls.ParseSchemeHostPathQuery` | XCallbackKit/Source/XCallbackRequest.swift:159-172 | `scheme://host/path?query` parses to its scheme, its host, its path and the query's items |
| `Urls.QuerySingleItem` | XCallbackKit/Source/XCallbackRequest.swift:149 | the query `name=value` is the single item `name` with value `value` |
| `Urls.ParseUrl` | XCallbackKit/Source/XCallbackRequest.swift:60 | a URL parsed with a scheme has a valid scheme, which the string starts with, followed by `:`; a host, when present, is valid |
| `Requests.Create` | XCallbackKit/Source/XCallbackRequest.swift:24-32 | scheme and action as given; the parameters are `{x-source: app}` when the source application is known and empty otherwise |
| `Requests.XSourceApp` | XCallbackKit/Source/XCallbackRequest.swift:48-51 | the source application is present exactly when `x-source` is set, and is then its value |
| `Requests.AddParameter` | XCallbackKit/Source/XCallbackRequest.swift:37-39 | the key maps to the value, overwriting; every other key is unchanged; the count grows by one exactly when the key was absent |
| `Requests.RemoveParameter` | XCallbackKit/Source/XCallbackRequest.swift:121-133 | the key is gone; every other key is unchanged; the count drops by one exactly when the key was present |
| `Requests.SetXSourceApp` | XCallbackKit/Source/XCallbackRequest.swift:48-55 | reading `xSourceApp` after setting it gives the value set, with `None` removing `x-source`; no other key changes |
| `Requests.AddXSuccessAction` | XCallbackKit/Source/XCallbackRequest.swift:87-89 | `x-success` holds exactly `scheme://x-callback-url/action` and every other key is unchanged; the count grows by one when the key was absent; scheme and action are unchanged |
| `Requests.AddXErrorAction` | XCallbackKit/Source/XCallbackRequest.swift:98-100 | `x-error` holds exactly `scheme://x-callback-url/action` and every other key is unchanged; the count grows by one when the key was absent; scheme and action are unchanged |
| `Requests.AddXCancelAction` | XCallbackKit/Source/XCallbackRequest.swift:109-111 | `x-cancel` holds exactly `scheme://x-callback-url/action` and every other key is unchanged; the count grows by one when the key was absent; scheme and action are unchanged |
| `Requests.RemoveXSuccessAction` | XCallbackKit/Source/XCallbackRequest.swift:121-123 | only `x-success` is removed, and `xSuccess` is then none; scheme and action are unchanged |
| `Requests.RemoveXErrorAction` | XCallbackKit/Source/XCallbackRequest.swift:126-128 | only `x-error` is removed, and `xError` is then none; scheme and action are unchanged |
| `Requests.RemoveXCancelAction` | XCallbackKit/Source/XCallbackRequest.swift:131-133 | only `x-cancel` is removed, and `xCancel` is then none; scheme and action are unchanged |
| `Requests.CallbackUrlString` | XCallbackKit/Source/XCallbackRequest.swift:114 | the stored address begins with the scheme and ends with the action, and is longer than the two together by the length of `://x-callback-url/` |
| `Requests.AddXCallbackParameter` | XCallbackKit/Source/XCallbackRequest.swift:113-116 | the address string is stored under the key, overwriting; scheme and action are unchanged |
| `Requests.ReturnRequest` | XCallbackKit/Source/XCallbackRequest.swift:58-76 | a return address is none when its key is absent, when its string is not a URL, or when that URL does not decode; otherwise it is the request the URL decodes to |
| `Requests.XSuccess` | XCallbackKit/Source/XCallbackRequest.swift:58-62 | `xSuccess` is present exactly when `x-success` holds a URL that decodes, and is then the decoded request |
| `Requests.XError` | XCallbackKit/Source/XCallbackRequest.swift:65-69 | `xError` is present exactly when `x-error` holds a URL that decodes, and is then the decoded request |
| `Requests.XCancel` | XCallbackKit/Source/XCallbackRequest.swift:72-76 | `xCancel` is present exactly when `x-cancel` holds a URL that decodes, and is then the decoded request |
| `Requests.DropFirst` | XCallbackKit/Source/XCallbackRequest.swift:142 | the result is the string without its first character, and the empty string stays empty |
| `Requests.ParamsOf` | XCallbackKit/Source/XCallbackRequest.swift:148-155 | the loop yields at most one entry per query item; `RequestProperties.ParamsOfLastWins` states which value each key gets |
| `Requests.InitWithUrl` | XCallbackKit/Source/XCallbackRequest.swift:138-156 | no scheme fails with `missingScheme`; otherwise a path of at most one character fails with `missingAction`; it succeeds exactly otherwise, with the URL's scheme and the path without its first character as action, and no parameters when there is no query |
| `Requests.Decode` | XCallbackKit/Source/XCallbackRequest.swift:138-156 | the loop over the query items, skipping items without a value, builds exactly the request `InitWithUrl` specifies |
| `Requests.DictionaryOrder` | XCallbackKit/Source/XCallbackRequest.swift:163 | the order chosen lists every key of the dictionary exactly once |
| `Requests.EncodeItems` | XCallbackKit/Source/XCallbackRequest.swift:163-171 | encoding fails if and only if some key or value cannot be percent-encoded; otherwise item `i` is key `i` and its value, both encoded |
| `Requests.AsUrl` | XCallbackKit/Source/XCallbackRequest.swift:158-177 | every failure is `invalidXCallbackURL` carrying the request itself; it succeeds exactly when `scheme://x-callback-url/action` parses and every key and value encodes; the URL keeps the parsed scheme and path |
| `RequestProperties.AddThenRemoveParameter` | XCallbackKit/Source/XCallbackRequest.swift:37-39 | adding then removing a key equals removing it alone, and restores the request when the key was absent |
| `RequestProperties.AddThenRemoveRestores` | XCallbackKitTests/XCallbackRequestTests.swift:137-161 | each return-address setter followed by its remover restores the original request when the key was unset, and otherwise equals the remover alone |
| `RequestProperties.CallbackUrlParses` | XCallbackKit/Source/XCallbackRequest.swift:113-116 | the address a setter stores parses, with or without a trailing `?`, to its scheme, the host `x-callback-url` and the path `/action` |
| `RequestProperties.ReturnAddressDecodes` | XCallbackKit/Source/XCallbackRequest.swift:58-62 | a key holding `scheme://x-callback-url/action` reads back as the request with that scheme, that action and no parameters |
| `RequestProperties.ReturnAddressRoundTrip` | XCallbackKitTests/XCallbackRequestTests.swift:137-154 | `xSuccess` after `addXSuccessAction`, and the same for error and cancel, yields that scheme and action with empty parameters |
| `RequestProperties.InvalidReturnAddress` | XCallbackKitTests/XCallbackRequestTests.swift:156-161 | `^^Invalid^^` stored under any of the three keys reads as no return address |
| `RequestProperties.ParamsOfKeys` | XCallbackKit/Source/XCallbackRequest.swift:148-155 | a key is decoded if and only if some query item with a value carries it |
| `RequestProperties.ParamsOfLastWins` | XCallbackKit/Source/XCallbackRequest.swift:148-155 | a decoded key has the value of the last item with a value that carries it |
| `RequestProperties.ParamsOfDistinct` | XCallbackKit/Source/XCallbackRequest.swift:148-155 | with distinct names and all values present, each item lands under its own name |
| `RequestProperties.DecodedKeysComeFromQuery` | XCallbackKit/Source/XCallbackRequest.swift:148-155 | the decoded parameters come from the query alone, with no `x-source` or other key added; a repeated key has the value of its last occurrence that carries one |
| `RequestProperties.DecodeIgnoresHost` | XCallbackKit/Source/XCallbackRequest.swift:138-156 | the host plays no part in decoding |
| `RequestProperties.MissingSchemeExample` | XCallbackKitTests/XCallbackRequestTests.swift:43-62 | `x-callback-url/action` parses but fails to decode with `missingScheme`, code 1305 |
| `RequestProperties.MissingActionExample` | XCallbackKitTests/XCallbackRequestTests.swift:64-83 | `scheme://x-callback-url` parses with an empty path and fails to decode with `missingAction`, code 1310 |
| `RequestProperties.EmptyPathDecode` | XCallbackKit/Source/XCallbackRequest.swift:142-145 | a URL with a scheme and an empty path fails with `missingAction`, code 1310 |
| `RequestProperties.ExtendedPathExample` | XCallbackKitTests/XCallbackRequestTests.swift:35-41 | `scheme://x-callback-url/a/b` decodes with the action `a/b`: inner slashes stay in the action |
| `RequestProperties.QueryParameterExample` | XCallbackKitTests/XCallbackRequestTests.swift:85-93 | `scheme://x-callback-url/action?key=value` decodes to exactly that scheme, action and one parameter |
| `RequestProperties.EncodedEntries` | XCallbackKit/Source/XCallbackRequest.swift:163-171 | the dictionary `asURL()` writes has each key and value encoded once, and nothing else |
| `RequestProperties.EncodedKeysDistinct` | XCallbackKit/Source/XCallbackRequest.swift:163-171 | distinct keys of a dictionary have distinct encodings |
| `RequestProperties.EncodedItems` | XCallbackKit/Source/XCallbackRequest.swift:172 | the query of an encoded URL is the list of encoded items |
| `RequestProperties.EncodedRequestDecodes` | XCallbackKit/Source/XCallbackRequest.swift:158-177 | decoding an encoded request gives back its scheme and action, with every key and value encoded once |
| `RequestProperties.EncodedItemsDecode` | XCallbackKit/Source/XCallbackRequest.swift:148-171 | reading the encoded items back gives the dictionary with every entry encoded once |
| `RequestProperties.EncodedNamesDistinct` | XCallbackKit/Source/XCallbackRequest.swift:163-171 | the encoded items have distinct names and all carry a value |
| `RequestProperties.RoundTrip` | XCallbackKit/Source/XCallbackRequest.swift:138-177 | for a valid scheme, a plain action and keys and values that need no escaping, decoding the encoded request gives back the request |
| `RequestProperties.PlainParametersUnchanged` | XCallbackKit/Source/XCallbackRequest.swift:163-171 | a dictionary whose keys and values need no escaping is its own encoding |
| `RequestProperties.EncodingOrderIrrelevant` | XCallbackKit/Source/XCallbackRequest.swift:163 | encoding succeeds for one order in which the dictionary is walked exactly when it succeeds for any other, and then the decoded request is the same |
| `RequestProperties.EncodeWithoutParameters` | XCallbackKit/Source/XCallbackRequest.swift:158-177 | a request without parameters encodes to the URL `scheme://x-callback-url/action?` |
| `RequestProperties.DoubleEncodingExample` | XCallbackKit/Source/XCallbackRequest.swift:163-172 | `{"msg": "a b"}` is sent and decoded as `{"msg": "a%20b"}` |
| `RequestProperties.EncodedSingleton` | XCallbackKit/Source/XCallbackRequest.swift:163-171 | a one-entry dictionary encodes to its one entry encoded |
| `RequestProperties.EncodeSpace` | XCallbackKit/Source/XCallbackRequest.swift:167 | the blank in `a b` is the one character escaped, as `%20` |
| `RequestProperties.InvalidSchemeFailsToEncode` | XCallbackKitTests/XCallbackRequestTests.swift:105-125 | a target scheme that is not a valid scheme and holds no `:`, `/` or `?`, such as a blank, fails to encode with `invalidXCallbackURL` carrying the request, code 1300 |
| `RequestProperties.CallbackHostUnreserved` | XCallbackKit/Source/XCallbackRequest.swift:16 | the host `x-callback-url` needs no escaping |
| `RequestProperties.PercentEncodeInjectiveAll` | XCallbackKit/Source/XCallbackRequest.swift:164 | no two strings share an encoding |
| `Responses.Success` | XCallbackKit/Source/XCallbackResponse.swift:20-22 | the parameters as given, `isSuccess`, not `isCancel`, and no error code or message |
| `Responses.Error` | XCallbackKit/Source/XCallbackResponse.swift:24-26 | the code and message as given, no parameters, and both flags false |
| `Responses.Cancel` | XCallbackKit/Source/XCallbackResponse.swift:28-30 | no parameters, code or message; `isCancel` and not `isSuccess` |
| `Responses.ConstructorsHaveOneShape` | XCallbackKit/Source/XCallbackResponse.swift:20-30 | each constructed response is exactly one of success, cancellation and error with code and message, the one its constructor names |
| `Responses.ShapesAreDistinct` | XCallbackKit/Source/XCallbackResponse.swift:20-30 | the three constructors never build the same response |
| `Conversion.AsXCallbackRequest` | XCallbackKit/Source/XCallbackRequestConvertable.swift:24-43 | a request converts to itself, a URL converts exactly as `init(url:)` decodes it, and the throwing value fails with `invalidXCallbackURL` carrying itself |
| `Conversion.ConversionFailures` | XCallbackKit/Source/XCallbackRequestConvertable.swift:34-42 | conversion fails only with a malformed request; a URL fails only with `missingScheme` or `missingAction`; a request never fails |
| `Kit.Launcher.constructor` | XCallbackKit/Source/XCallbackRequestHandling.swift:11-14 | a launcher with the given `canOpen` and nothing opened yet |
| `Kit.Launcher.Open` | XCallbackKit/Source/XCallbackRequestHandling.swift:12 | opening appends the URL to the launcher's log |
| `Kit.SendEffect` | XCallbackKit/Source/XCallbackKit.swift:44-54 | `send` succeeds exactly when it opens a URL, and it opens at most one |
| `Kit.ReturnLaunch` | XCallbackKit/Source/XCallbackKit.swift:103-107 | at most one URL is opened; one exactly when a return request exists and encodes, and then it is that encoding |
| `Kit.ComposeReturn` | XCallbackKit/Source/XCallbackKit.swift:87-102 | a return request is composed exactly when the response selects a return address that decodes (success, else cancel, else an error carrying code and message); a success or error return goes to that address's scheme and action, and a cancel return is the `x-cancel` request itself (`KitProperties.CancelReturn`) |
| `Kit.XCallbackKit.constructor` | XCallbackKit/Source/XCallbackKit.swift:20-29 | no handlers, querying enabled, the given launcher, and no invocations yet |
| `Kit.XCallbackKit.RegisterActionHandler` | XCallbackKit/Source/XCallbackKit.swift:36-38 | the handler is stored under its action, overwriting; other actions and the flag are unchanged; exactly the values converting to that action become handleable in addition |
| `Kit.XCallbackKit.CanHandle` | XCallbackKit/Source/XCallbackKit.swift:60-67 | a value can be handled only if it converts and its action has a handler; a request whose action has one can be handled; the throwing value never can |
| `Kit.XCallbackKit.Send` | XCallbackKit/Source/XCallbackKit.swift:44-54 | the outcome and the launcher's new log are those of `SendEffect` for the order chosen |
| `Kit.XCallbackKit.Handle` | XCallbackKit/Source/XCallbackKit.swift:73-80 | succeeds exactly when `canHandle` held; conversion errors propagate; an unregistered action fails with `missingActionHandler` and changes nothing; otherwise the handler is invoked once with the converted request and its return request is launched |
| `Kit.XCallbackKit.HandleResponse` | XCallbackKit/Source/XCallbackKit.swift:83-109 | the launcher's log grows by the encoding of the composed return request, if it encodes, and by nothing otherwise |
| `Kit.XCallbackKit.OpenReturn` | XCallbackKit/Source/XCallbackKit.swift:103-107 | a return request that encodes is opened; a missing one or one that fails to encode opens nothing |
| `Kit.Compose` | XCallbackKit/Source/XCallbackKit.swift:87-102 | the request the completion composes is `ComposeReturn` of the request and the response |
| `Kit.AddAll` | XCallbackKit/Source/XCallbackKit.swift:90-94 | adding every response parameter in turn gives the request's parameters overwritten by the response's |
| `Kit.MergedMap` | XCallbackKit/Source/XCallbackKit.swift:90-94 | a dictionary holding the keys of both and the second's value where both have one is their merge |
| `KitProperties.SendPropagatesErrors` | XCallbackKit/Source/XCallbackKit.swift:45-46 | conversion and encoding errors come back unchanged before the launcher is consulted, and nothing is opened |
| `KitProperties.DisabledQueryingAlwaysOpens` | XCallbackKitTests/XCallbackKitTests.swift:80-88 | with querying disabled, `send` succeeds exactly when the value converts and encodes, and never fails with a configuration failure |
| `KitProperties.QueryingGate` | XCallbackKit/Source/XCallbackKit.swift:47-53 | querying only makes a difference where the launcher cannot open the URL: there `send` fails with `unregisteredApplicationScheme` of the target scheme, code 1200, and opens nothing |
| `KitProperties.SendPlainRequest` | XCallbackKitTests/XCallbackKitTests.swift:50-88 | a plain request is opened exactly when the launcher can open it or querying is disabled, as the one URL that decodes back to it; otherwise the failure names its scheme |
| `KitProperties.CanHandleCases` | XCallbackKit/Source/XCallbackKit.swift:60-67 | `canHandle` holds exactly when the value converts and its action has a handler; a value that does not convert cannot be handled |
| `KitProperties.ComposePrecedence` | XCallbackKit/Source/XCallbackKit.swift:88-102 | success takes precedence over cancellation and cancellation over error; a response with neither flag and without both code and message composes nothing |
| `KitProperties.SuccessReturn` | XCallbackKit/Source/XCallbackKit.swift:88-94 | a success response returns to `x-success` with each of its parameters added, overwriting, and the other parameters kept |
| `KitProperties.CancelReturn` | XCallbackKit/Source/XCallbackKit.swift:95-96 | a cancel response returns to `x-cancel` unmodified |
| `KitProperties.ErrorReturn` | XCallbackKit/Source/XCallbackKit.swift:97-102 | an error response returns to `x-error` with `errorCode` reading back as the code and `errorMessage` the message; every other key, the reserved ones included, is kept |
| `KitProperties.NoReturnAddressOpensNothing` | XCallbackKitTests/XCallbackKitTests.swift:156-168 | without the return address the response selects, nothing is composed and nothing is opened |
| `KitProperties.SuccessArrives` | XCallbackKitTests/XCallbackKitTests.swift:91-114 | the success return reaches `scheme://x-callback-url/action` and decodes to exactly the response's parameters |
| `KitProperties.SuccessComposed` | XCallbackKit/Source/XCallbackKit.swift:88-94 | the success return of a request whose `x-success` was set is that address with the response's parameters |
| `KitProperties.ErrorArrives` | XCallbackKitTests/XCallbackKitTests.swift:116-136 | the error return reaches its address and decodes to exactly the code and the message |
| `KitProperties.ErrorComposed` | XCallbackKit/Source/XCallbackKit.swift:97-102 | the error return of a request whose `x-error` was set is that address with `errorCode` and `errorMessage` |
| `KitProperties.ErrorPayloadPlain` | XCallbackKit/Source/XCallbackKit.swift:100-101 | the error payload has exactly the two error keys, and with a plain message nothing in it needs escaping |
| `KitProperties.ErrorKeysPlain` | XCallbackKit/Source/XCallbackParameter.swift:23-25 | the two error keys need no escaping |
| `KitProperties.CancelArrives` | XCallbackKitTests/XCallbackKitTests.swift:138-154 | the cancel return reaches its address and decodes without parameters |
| `KitProperties.DecimalIsPlain` | XCallbackKit/Source/XCallbackKit.swift:100 | the decimal rendering of a code needs no escaping |

## Left out

- Foundation's `URL`, `URLComponents` and `addingPercentEncoding` are not modelled as Apple implements them. `Urls` gives an RFC 3986 reading of the forms the codec produces and reads:
  - fragments are not part of it, so `#` is refused like any other character outside the syntax;
  - characters beyond ASCII cannot be percent-encoded, so encoding fails on them;
  - the trailing-slash handling of `URL.path` is not modelled: the model keeps a trailing `/` in the path, where Foundation drops it. The round-trip lemmas therefore ask for a plain action (`RequestProperties.IsPlainAction`), which does not end in `/`. For an action such as `done/`, the program reads back `done`, and the model states nothing about that case. The lemmas with this precondition are:
    - `RequestProperties.CallbackUrlParses`, `ReturnAddressDecodes`, `ReturnAddressRoundTrip`, `ExtendedPathExample`, `QueryParameterExample`, `EncodedRequestDecodes`, `RoundTrip`, `EncodingOrderIrrelevant`, `EncodeWithoutParameters` and `DoubleEncodingExample`;
    - `KitProperties.SendPlainRequest`, `SuccessArrives`, `SuccessComposed`, `ErrorArrives`, `ErrorComposed` and `CancelArrives`.
- Urls.PercentDecode: escapes of octets `%80` to `%FF` (UTF-8 sequences) are refused, because the model has no UTF-8 decoding. So `Urls.ParseUrl` refuses a URL carrying them, such as `app://x-callback-url/done?n=caf%C3%A9`, which Foundation accepts and decodes to `café`. A stored return address carrying them reads as none through `Requests.XSuccess`, `Requests.XError` and `Requests.XCancel`.
- The escaping that the `queryItems` setter adds, and that `URLComponents.queryItems` undoes when the URL is read, is taken to cancel out: the URL holds the items exactly as `asURL()` assigned them. What stays is the escaping `asURL()` does itself, so decoding an encoded request gives every key and value encoded once (`RequestProperties.EncodedRequestDecodes`, `RequestProperties.DoubleEncodingExample`). The round trip holds only for keys and values that need no escaping (`RequestProperties.RoundTrip`).
- Requests.AsUrl: the failure of `components.url` cannot occur in the model, because a URL whose base parses and whose items encode always exists.
- Bundle lookup: `XCallbackKit.sourceApp` reads `Bundle.main`; the model receives the name as the parameter `sourceApp` of `Requests.Create`.
- Launcher plumbing and the operating system:
  - `Launcher` keeps only `canOpen` and a log of opened URLs;
  - the completion handler of `open(url:_:)` is ignored, as the kit's one-argument call ignores it;
  - the `UIApplication` extension is not part of this model.
- Asynchrony: an action handler's completion may run late, on any thread, or never. The model's handler answers once and synchronously.
- Kit.XCallbackKit.Handle: the handler protocol's bodies are not modelled; a handler is a function from request to response.
- Kit.AddAll adds each entry by a direct dictionary update, which is exactly what `addParameter` does.
- Errors.ErrorReason: `ErrorReasonConvertable` and `NSError` become the record `ErrorReason` of a code, a description, and the text `String(describing:)` yields for it.
- Errors.MalformedDescription: how Swift renders an interpolated convertible value in a description is left to the caller as the function `show`.
- Errors.ConfigurationDescription: the description of `unregisteredApplicationScheme` and the debug prefix `Configuration Failure Error: ` are the model's own, because the Swift sources declare neither.
- Swift's `Int` bounds are not modelled; codes are unbounded integers, and nothing in the engine does arithmetic on them.
- The older copies `XCallbackKit/XCallbackKit.swift`, `XCallbackKit/XCallbackRequestConvertable.swift` and `XCallbackKit/XCallbackActionHandling.swift` are not part of this model. They differ in behaviour, and only the `Source/` versions are modelled.
- `Package.swift` and the tests' random URL generator are not part of this model.
