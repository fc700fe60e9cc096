# JSON-RPC proxy handler: a Dafny model

This project models the JSON-RPC forwarding core of the dashboard's API proxy,
`src/utils/proxy/handlers/jsonrpc.js`. That file has two parts:

- `sendJsonRpcRequest` makes one JSON-RPC 2.0 call. It builds the outbound headers, with Basic credentials when the widget has both a username and a password. It posts the request through the HTTP transport and adjusts a 200 reply's envelope. Then it maps how the call settles to a `(status, content type, body)` triple.
- `jsonrpcProxyHandler` is the inbound API route. It checks the `group` and `service` query parameters and resolves the service's widget and that widget type's API template. Then it forwards the `endpoint` as the RPC method, with null params, and writes to the response.

Modules:

- `Wrappers` (`wrappers.dfy`): `Option`, `Result` and the byte type.
- `JsonValues` (`json_values.dfy`): parsed JSON values and the JavaScript semantics the code depends on. This means truthiness, property reads on a parsed value, and `String(v)`.
- `Utf8` (`utf8.dfy`): UTF-8 as RFC 3629 defines it. `Buffer.from(string)` applies this before base64.
- `Base64` (`base64.dfy`): base64 as section 4 of RFC 4648 defines it, with the decoder that inverts it.
- `BasicAuth` (`basic_auth.dfy`): the `Basic` credentials of section 2 of RFC 7617, with the parse a server performs, which inverts it.
- `JsonRpcClient` (`jsonrpc_client.dfy`): `sendJsonRpcRequest`.
  - `BuildHeaders` is a method that builds the header map and then adds to it, as the source does.
  - `SendJsonRpcRequest` is a method, proved against the specification functions `RequestHeaders`, `NormaliseEnvelope`, `Settle`, `Exchange` and `ReplyFor`.
- `ProxyHandler` (`proxy_handler.dfy`): the handler.
  - `ServerResponse` is a class that records each `res.status(s).json(...)` and `res.status(s).end(...)` write, in order.
  - `JsonRpcProxyHandler` is a method that performs those writes. It is proved against `HandlerRun`, which describes a run of the handler exactly as written.

## Model

| member | source | states |
|---|---|---|
| `Utf8.RoundTrip` | src/utils/proxy/handlers/jsonrpc.js:18 | The UTF-8 bytes of `username:password`, as `Buffer.from` encodes them, decode back to the same string, for every string of Unicode scalar values. |
| `Base64.Encode` | src/utils/proxy/handlers/jsonrpc.js:18 | The base64 text of n octets has 4·⌈n/3⌉ characters, so the final group is padded, as RFC 4648 section 4 requires. |
| `Base64.EncodeCharacters` | src/utils/proxy/handlers/jsonrpc.js:18 | Every character of the encoding is from the alphabet of Table 1 of RFC 4648 or is `=`. Padding appears only in the last two positions. |
| `Base64.RoundTrip` | src/utils/proxy/handlers/jsonrpc.js:18 | Decoding the encoding of any octet sequence gives back that sequence. |
| `Base64.Rfc4648TestVectors` | src/utils/proxy/handlers/jsonrpc.js:18 | The encoder reproduces the test vectors of section 10 of RFC 4648, "" through "foobar". |
| `BasicAuth.Credentials` | src/utils/proxy/handlers/jsonrpc.js:18-19 | The header value is `Basic ` followed by a token made only of base64 characters. |
| `BasicAuth.SplitAtColon` | src/utils/proxy/handlers/jsonrpc.js:18 | It splits at the first colon: the two parts joined by `:` give the input back, and the first part holds no colon. It returns None exactly when there is no colon. |
| `BasicAuth.RoundTrip` | src/utils/proxy/handlers/jsonrpc.js:17-20 | When the user-id holds no colon, a server parsing the header under RFC 7617 recovers exactly that user-id and password. |
| `BasicAuth.ColonInUserIdIsMisread` | src/utils/proxy/handlers/jsonrpc.js:18 | A colon in the username is not escaped, so for every user-id holding a colon a server never reads back that user-id and password. With `RoundTrip` this is an iff. |
| `BasicAuth.ColonInUserIdExample` | src/utils/proxy/handlers/jsonrpc.js:18 | `a:b` with password `c` is read back as user `a` with password `b:c`. |
| `JsonValues.Digits` | src/utils/proxy/handlers/jsonrpc.js:18 | The decimal digits of a natural number: at least one digit, no leading zero unless it is the only digit, and a single digit exactly for numbers below 10. |
| `JsonValues.DigitsRoundTrip` | src/utils/proxy/handlers/jsonrpc.js:18 | The decimal text a template literal gives a numeric credential denotes that number. |
| `JsonValues.IntToString` | src/utils/proxy/handlers/jsonrpc.js:18 | `String(n)` of a safe integer has a minus sign exactly when n is negative. The sign is followed by decimal digits only, with no leading zero (unless the number is 0), and they read back as the magnitude of n. |
| `JsonValues.ToJsString` | src/utils/proxy/handlers/jsonrpc.js:18 | `String(v)` as the template literal and the Error constructor apply it: a string converts to itself, a number to `IntToString` of it, an object to `[object Object]`, an empty array to the empty string. |
| `JsonRpcClient.RequestHeaders` | src/utils/proxy/handlers/jsonrpc.js:12-20 | `content-type` and `accept` are always `application/json`. `authorization` is present iff both credentials are truthy, and its value is the Basic credentials of `String(username):String(password)`. No other header is present. |
| `JsonRpcClient.BuildHeaders` | src/utils/proxy/handlers/jsonrpc.js:12-20 | Building the map and then adding the credentials produces exactly `RequestHeaders`. |
| `JsonRpcClient.AuthorizationCarriesCredentials` | src/utils/proxy/handlers/jsonrpc.js:17-20 | When both credentials are truthy and the username holds no colon, a server parsing the `authorization` header reads back the widget's username and password. |
| `JsonRpcClient.AuthorizationMisreadsColonUsername` | src/utils/proxy/handlers/jsonrpc.js:17-20 | When the username's string holds a colon, a server never reads back the widget's username and password. |
| `JsonRpcClient.RequestObject` | src/utils/proxy/handlers/jsonrpc.js:26 | The serialised request has `jsonrpc` "2.0", the given `params` and `id`, and a `method` exactly when one is given, holding it. It has no other field. |
| `JsonRpcClient.ErrorString` | src/utils/proxy/handlers/jsonrpc.js:56 | `String(e)` of an Error starts with `Error`. It is exactly `Error` iff the message is empty. Otherwise `Error` is followed by `: ` and then the message. |
| `JsonRpcClient.NormaliseEnvelope` | src/utils/proxy/handlers/jsonrpc.js:33-39 | It removes `result` exactly when `error` is truthy and `result` is null, and leaves every other envelope unchanged. A null body throws the TypeError of reading its `error`. |
| `JsonRpcClient.NormaliseIdempotent` | src/utils/proxy/handlers/jsonrpc.js:37-39 | Normalising twice gives the same envelope as normalising once. |
| `JsonRpcClient.NormalisedEnvelopeHasNoNullResultBesideError` | src/utils/proxy/handlers/jsonrpc.js:35-39 | After normalisation, no envelope pairs a truthy `error` with a null `result`. Section 5 of the JSON-RPC 2.0 Specification says `result` must not exist on error. |
| `JsonRpcClient.Settle` | src/utils/proxy/handlers/jsonrpc.js:35-40 | A defined `result` with a falsy `error` is a success carrying that result. An undefined `result` with a truthy `error` is an RPC error carrying the error's `code` and the string of its `message`. Anything else is the library's "unexpected" Error. |
| `JsonRpcClient.Exchange` | src/utils/proxy/handlers/jsonrpc.js:30-43 | A throwing transport fails with its exception. A status other than 200 fails with `Error(body)`. The call settles as a success or an RPC error only for a 200 whose body parses to an object, and then as `Settle` decides on the normalised envelope. |
| `JsonRpcClient.ReplyFor` | src/utils/proxy/handlers/jsonrpc.js:46-57 | The content type is always `application/json` and the status is 200 or 500. The status is 500 exactly for a failure that is not an RPC error. A success's body is the result value itself. An RPC error's body is `{result: null, error: {code, message}}`. Any other failure's body is `{result: null, error: {code: 2, message: String(e)}}`. |
| `JsonRpcClient.SendJsonRpcRequest` | src/utils/proxy/handlers/jsonrpc.js:11-58 | The request is a POST carrying `RequestHeaders` and the JSON-RPC request object (`jsonrpc`, `method`, `params`, `id`). The reply is `ReplyFor` of how the exchange settles. Its content type is `application/json` and its status is 200 or 500. |
| `JsonRpcClient.NonOkStatusNeverParsed` | src/utils/proxy/handlers/jsonrpc.js:32-56 | With a status other than 200, the parser has no influence on the outcome. The reply is 500 with code 2 and the message `Error: ` followed by the raw body. |
| `JsonRpcClient.RpcErrorPassesThrough` | src/utils/proxy/handlers/jsonrpc.js:37-52 | An error object beside a null or absent `result` yields 200 with `{result: null, error: {code, message}}`, where the code and message are exactly the target's. |
| `JsonRpcClient.SuccessPassesResult` | src/utils/proxy/handlers/jsonrpc.js:47-48 | A defined `result` beside a falsy `error` yields 200 with the result value itself as the body, not wrapped. This includes a null result. |
| `JsonRpcClient.ResultBesideErrorFails` | src/utils/proxy/handlers/jsonrpc.js:37-56 | A non-null `result` beside a truthy `error` is left unchanged by normalisation and ends as 500 "Error: An unexpected error occurred". |
| `JsonRpcClient.NullBodyFails` | src/utils/proxy/handlers/jsonrpc.js:33-37 | A 200 body that parses to `null` ends as 500 with the TypeError of reading `error` of null. |
| `ProxyHandler.ApiTemplate` | src/utils/proxy/handlers/jsonrpc.js:65 | A registered type yields its own registry entry's `api`, and a type missing from the registry has no template. |
| `ProxyHandler.HandlerRun` | src/utils/proxy/handlers/jsonrpc.js:60-82 | A run sends at most one request and makes at most two writes. It rejects iff it writes nothing. It writes twice iff it sent a request, and its last write is always a `.json` write. |
| `ProxyHandler.ServerResponse.Status` | src/utils/proxy/handlers/jsonrpc.js:68 | `res.status(code)` sets the status code and writes nothing. |
| `ProxyHandler.ServerResponse.SendJson` | src/utils/proxy/handlers/jsonrpc.js:68 | `.json(body)` appends one write with the current status and the body, and leaves the status unchanged. |
| `ProxyHandler.ServerResponse.End` | src/utils/proxy/handlers/jsonrpc.js:76 | `.end(data)` appends one write with the current status and the data, and leaves the status unchanged. |
| `ProxyHandler.JsonRpcProxyHandler` | src/utils/proxy/handlers/jsonrpc.js:60-82 | The writes it makes to `res`, the requests it sends and how it settles are exactly those of `HandlerRun`, the handler as written. |
| `ProxyHandler.MissingIdentifierIsRejected` | src/utils/proxy/handlers/jsonrpc.js:61-81 | A missing or empty `group` or `service` writes only 400 `{error: "Invalid proxy service type"}` and sends nothing. |
| `ProxyHandler.NoApiIsForbidden` | src/utils/proxy/handlers/jsonrpc.js:64-69 | A widget type with no API template writes only 403 `{error: "Service does not support API calls"}` and sends nothing. |
| `ProxyHandler.RequestSentOnlyWithApi` | src/utils/proxy/handlers/jsonrpc.js:63-75 | A request is sent iff both identifiers are present, the widget resolves and its type has an API template. At most one request is sent. It goes to the templated URL as a POST with the widget's headers, the endpoint as `method` and null `params`. |
| `ProxyHandler.ForwardedCallWritesTwice` | src/utils/proxy/handlers/jsonrpc.js:71-81 | On the forwarding path, the reply's status and body are written and its content type is dropped. Control then falls through to a second write, 400 "Invalid proxy service type". |
| `ProxyHandler.UnresolvedWidgetThrows` | src/utils/proxy/handlers/jsonrpc.js:64-71 | When the widget does not resolve, reading its `type` throws before the `if (widget)` guard. Nothing is written and nothing is sent. |
| `ProxyHandler.WrittenStatuses` | src/utils/proxy/handlers/jsonrpc.js:60-82 | Every status the handler writes is 200, 400, 403 or 500. |
| `ProxyHandler.CorrectedHandlerRun` | src/utils/proxy/handlers/jsonrpc.js:60-82 | The handler with a `return` after line 76 and the widget checked before line 65 reads its type: exactly one write on every path, and it always returns. That write is an `.end` write iff a request was sent. |
| `ProxyHandler.CorrectedHandlerWritesOnce` | src/utils/proxy/handlers/jsonrpc.js:60-82 | The corrected handler writes exactly once on every path and never throws. It sends the same requests as the handler as written, and its write is the first write the handler as written makes. |
| `ProxyHandler.ExampleSuccess` | src/utils/proxy/handlers/jsonrpc.js:47-48 | For `media`/`sonarr1` and a target reply `{result: {version: "3.0"}, error: null}`, the client sees 200 with body `{version: "3.0"}`. |
| `ProxyHandler.ExampleRpcError` | src/utils/proxy/handlers/jsonrpc.js:37-52 | For a target reply `{result: null, error: {code: -32601, message: "Method not found"}}`, the client sees 200 with the same null result and error. |
| `ProxyHandler.ExampleUnreachable` | src/utils/proxy/handlers/jsonrpc.js:55-56 | When the transport throws, the client sees 500 with code 2 and the failure's text. |

Two points where the code's behaviour differs from what one might expect:

- A success is answered with the serialised result value itself (line 48), not with `{"result": value}`. The model follows the code; see `SuccessPassesResult` and `ExampleSuccess`.
- On the forwarding path the response is written twice; see Findings.

## Findings

| source | as written | input that shows it | evidently intended | confidence | as-written member | corrected member |
|---|---|---|---|---|---|---|
| src/utils/proxy/handlers/jsonrpc.js:76-81 | After `res.status(status).end(data)` there is no `return`, so the handler also runs `res.status(400).json({error: "Invalid proxy service type"})` | any query whose `group`/`service` resolve to a widget whose type has an API template | return after the forwarded write, so the response is written once | high, not executed | `ProxyHandler.ForwardedCallWritesTwice` | `ProxyHandler.CorrectedHandlerRun`, `ProxyHandler.CorrectedHandlerWritesOnce` |
| src/utils/proxy/handlers/jsonrpc.js:64-71 | `widget.type` is read on line 65, before the `if (widget)` guard on line 71 | `group`/`service` present, but `getServiceWidget` resolves to an undefined widget | check the widget before reading its type and answer 400 | medium, not executed | `ProxyHandler.UnresolvedWidgetThrows` | `ProxyHandler.CorrectedHandlerRun`, `ProxyHandler.CorrectedHandlerWritesOnce` |

## Left out

- Transport (`httpProxy`): an input function from URL and request to either a status with the body text or a thrown failure, already rendered as `String(e)`. Network I/O is not modelled. Decoding the body Buffer to text is not modelled either.
- `JSON.parse`: an input function from text to a value or a SyntaxError text. `JSON.stringify`: a reply's body is the value handed to it, and the serialised text is not modelled.
- JSON values: numbers are safe integers (magnitude below 2^53), so non-integer numbers are not modelled. Objects are maps, so key order and duplicate keys are not modelled.
- IntToString and ToJsString: only safe integers exist in the model. The exponent form JavaScript gives a number of magnitude 10^21 or more (`1e+21`) is not modelled. Neither is the rounding of integers beyond 2^53, which `JSON.parse` would produce.
- Utf8.Encode: a Dafny string holds Unicode scalar values only. A JavaScript string can hold a lone surrogate, which `Buffer.from` encodes as EF BF BD. That case is not modelled, so `Utf8.RoundTrip` covers only strings without lone surrogates.
- Client library (`JSONRPCClient`, `JSONRPCErrorException`): not part of this model.
  - The model takes from it only how a pending request settles for the envelope that answers it (`Settle`).
  - It also assumes that a rejected transport callback rejects the request with that same exception.
  - Id generation is an input (`Channel.requestId`).
  - Correlating a reply to its request by id is not modelled, so every parsed envelope is taken to answer the pending call. Batch (array) replies are not modelled.
- `NormaliseEnvelope`: the source assigns `json.result = undefined` in place. The model returns the envelope without `result`. Every later read is the same, and no other reference to the parsed object exists.
- `getServiceWidget`, `formatApiCall` and the `widgets` registry: inputs (`Services`).
  - A pair that `getServiceWidget` does not resolve stands for an undefined widget.
  - A falsy but non-nullish widget (such as `false`) is not modelled.
  - `formatApiCall` receives the widget itself rather than a spread copy.
- Query parameters are single strings or absent. Repeated parameters that arrive as arrays are not modelled.
- `ForwardedCallWritesTwice` records the second write as attempted. What the HTTP framework does with a write after `end` (the client has already received the first one) is not modelled.
- Logging (lines 9, 55, 80), `async`/`await` and promise scheduling: left out, because each call is one sequential exchange.
- The literal text of the TypeErrors is the V8 wording of the engine the code runs on.
- NonOkStatusNeverParsed, NullBodyFails and ExampleUnreachable: the 500 with code 2 they state depends on the assumption above. It also applies to a malformed body (`Exchange`). The alternative: the client library may catch a rejected transport callback and settle the request as a JSON-RPC error with code 0 and the exception's message. Then line 51 would treat each of these cases as an RPC error, and the reply would be 200 `{result: null, error: {code: 0, message}}`.
