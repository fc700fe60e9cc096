/** `sendJsonRpcRequest` (src/utils/proxy/handlers/jsonrpc.js): one JSON-RPC
    2.0 call forwarded over HTTP and turned into a (status, content type,
    body) triple. The transport (`httpProxy`), the JSON parser and the
    request id the client library picks are inputs; the body of a reply is
    the JSON value handed to `JSON.stringify`. */
module JsonRpcClient {

  import opened Wrappers
  import opened JsonValues
  import Base64
  import Utf8
  import BasicAuth

  const JsonMediaType: string := "application/json"

  /** The `code` the handler reports for every failure that is not an RPC
      error. */
  const FailureCode: int := 2

  /** The message of the Error the client library rejects with when a reply
      is neither a result nor an error. */
  const UnexpectedReply: string := "An unexpected error occurred"

  /** `String(e)` for the TypeError thrown by reading `error` of null. */
  const NullEnvelopeFailure: string := "TypeError: Cannot read properties of null (reading 'error')"

  /** The HTTP request handed to the transport. */
  datatype HttpRequest = HttpRequest(verb: string, headers: map<string, string>, body: Json)

  /** What the transport does: it answers with a status and the body as text,
      or it throws, and then the text is `String(error)`. */
  datatype TransportResult =
    | Answered(status: int, data: string)
    | Threw(failure: string)

  /** What JSON.parse makes of a text: a value, or `String(error)` of the
      SyntaxError it throws. */
  datatype ParseResult = Parsed(value: Json) | Malformed(failure: string)

  /** How `client.request` settles: with the result, with a
      JSONRPCErrorException (its `code` and `message`), or with any other
      exception (its `String(e)`). */
  datatype Outcome =
    | Success(value: Json)
    | RpcError(code: Option<Json>, message: string)
    | OtherFailure(text: string)

  /** The triple `sendJsonRpcRequest` returns; `body` is the value it
      serialises. */
  datatype Reply = Reply(status: int, contentType: string, body: Json)

  /** The collaborators of one call: the transport, the JSON parser, and the
      id the client library gives the request. */
  datatype Channel = Channel(
    httpProxy: (string, HttpRequest) -> TransportResult,
    jsonParse: string -> ParseResult,
    requestId: SafeInteger)

  /** The headers of every outbound request: both media types always, and a
      Basic `authorization` exactly when both credentials are truthy. */
  function RequestHeaders(username: Option<Json>, password: Option<Json>): (h: map<string, string>)
    ensures "content-type" in h && h["content-type"] == JsonMediaType
    ensures "accept" in h && h["accept"] == JsonMediaType
    ensures "authorization" in h <==> Present(username) && Present(password)
    ensures "authorization" in h ==>
      h["authorization"] == BasicAuth.Credentials(ToJsString(username.value), ToJsString(password.value))
    ensures h.Keys <= {"content-type", "accept", "authorization"}
  {
    var base := map["content-type" := JsonMediaType, "accept" := JsonMediaType];
    if Present(username) && Present(password) then
      base["authorization" := BasicAuth.Credentials(ToJsString(username.value), ToJsString(password.value))]
    else base
  }

  /** Builds the header dictionary and adds the credentials to it when both
      are truthy. */
  method BuildHeaders(username: Option<Json>, password: Option<Json>) returns (headers: map<string, string>)
    ensures headers == RequestHeaders(username, password)
  {
    headers := map["content-type" := JsonMediaType, "accept" := JsonMediaType];
    if Present(username) && Present(password) {
      var authorization := Base64.Encode(Utf8.Encode(ToJsString(username.value) + ":" + ToJsString(password.value)));
      headers := headers["authorization" := "Basic " + authorization];
    }
  }

  /** The request object the client library serialises; `JSON.stringify`
      leaves out a `method` that is undefined. */
  function RequestObject(rpcMethod: Option<string>, params: Json, id: SafeInteger): (r: Json)
    ensures Get(r, "jsonrpc") == Some(JStr("2.0"))
    ensures Get(r, "params") == Some(params) && Get(r, "id") == Some(JNum(id))
    ensures Get(r, "method").Some? <==> rpcMethod.Some?
    ensures rpcMethod.Some? ==> Get(r, "method") == Some(JStr(rpcMethod.value))
    ensures r.JObj? && r.fields.Keys <= {"jsonrpc", "method", "params", "id"}
  {
    var fields := map["jsonrpc" := JStr("2.0"), "params" := params, "id" := JNum(id)];
    JObj(if rpcMethod.Some? then fields["method" := JStr(rpcMethod.value)] else fields)
  }

  /** `String(e)` for an Error with the given message. */
  function ErrorString(message: string): (r: string)
    ensures |r| >= 5 && r[..5] == "Error"
    ensures r == "Error" <==> message == ""
    ensures message != "" ==> |r| == |message| + 7 && r[5..7] == ": " && r[7..] == message
  {
    if message == "" then "Error" else "Error: " + message
  }

  /** The envelope after the adjustment the transport callback makes: when
      `error` is truthy and `result` is null, `result` becomes undefined.
      Reading `error` of null throws. */
  function NormaliseEnvelope(json: Json): (r: Result<Json>)
    ensures r.Err? <==> json.JNull?
    ensures r.Err? ==> r.failure == NullEnvelopeFailure
    ensures r.Ok? && r.value != json <==>
      Present(Get(json, "error")) && Get(json, "result") == Some(JNull)
    ensures r.Ok? && r.value != json ==>
      r.value == JObj(json.fields - {"result"}) && Get(r.value, "result").None?
  {
    if json.JNull? then Err(NullEnvelopeFailure)
    else if Present(Get(json, "error")) && Get(json, "result") == Some(JNull) then
      Ok(JObj(json.fields - {"result"}))
    else Ok(json)
  }

  /** The message of a JSONRPCErrorException: the Error constructor turns the
      envelope's `message` into a string, and an undefined one into "". */
  function MessageText(message: Option<Json>): string
  {
    if message.None? then "" else ToJsString(message.value)
  }

  /** How the client library settles a pending request with the envelope that
      answers it: a defined `result` beside a falsy `error` is a success; an
      undefined `result` beside a truthy `error` is an RPC error; anything
      else is a plain Error. */
  function Settle(envelope: Json): (o: Outcome)
    ensures o.Success? <==> Get(envelope, "result").Some? && !Present(Get(envelope, "error"))
    ensures o.Success? ==> o.value == Get(envelope, "result").value
    ensures o.RpcError? <==> Get(envelope, "result").None? && Present(Get(envelope, "error"))
    ensures o.RpcError? ==>
      o.code == Get(Get(envelope, "error").value, "code") &&
      o.message == MessageText(Get(Get(envelope, "error").value, "message"))
    ensures o.OtherFailure? ==> o.text == ErrorString(UnexpectedReply)
  {
    var result := Get(envelope, "result");
    var error := Get(envelope, "error");
    if result.Some? && !Present(error) then Success(result.value)
    else if result.None? && Present(error) then
      RpcError(Get(error.value, "code"), MessageText(Get(error.value, "message")))
    else OtherFailure(ErrorString(UnexpectedReply))
  }

  /** The outcome of one exchange, from what the transport did: a 200 body is
      parsed, normalised and settled; any other status rejects with an Error
      whose message is the body; a throw or a parse error rejects with that
      exception. */
  function Exchange(transported: TransportResult, jsonParse: string -> ParseResult): (o: Outcome)
    ensures transported.Threw? ==> o == OtherFailure(transported.failure)
    ensures transported.Answered? && transported.status != 200 ==> o == OtherFailure(ErrorString(transported.data))
    ensures !o.OtherFailure? ==>
      transported.Answered? && transported.status == 200 &&
      jsonParse(transported.data).Parsed? && jsonParse(transported.data).value.JObj? &&
      o == Settle(NormaliseEnvelope(jsonParse(transported.data).value).value)
  {
    match transported
    case Threw(failure) => OtherFailure(failure)
    case Answered(status, data) =>
      if status == 200 then
        match jsonParse(data)
        case Malformed(failure) => OtherFailure(failure)
        case Parsed(json) =>
          match NormaliseEnvelope(json)
          case Err(failure) => OtherFailure(failure)
          case Ok(envelope) => Settle(envelope)
      else OtherFailure(ErrorString(data))
  }

  /** The body `{result: null, error: {code, message}}`; `JSON.stringify`
      leaves out an undefined `code`. */
  function ErrorEnvelope(code: Option<Json>, message: string): Json
  {
    var error := map["message" := JStr(message)];
    JObj(map["result" := JNull, "error" := JObj(if code.Some? then error["code" := code.value] else error)])
  }

  /** The reply for each outcome: a success is 200 with the result value
      itself as the body; an RPC error is 200 with the error's code and
      message; any other failure is 500 with code 2 and `String(e)`. */
  function ReplyFor(o: Outcome): (r: Reply)
    ensures r.contentType == JsonMediaType
    ensures r.status == 200 || r.status == 500
    ensures r.status == 500 <==> o.OtherFailure?
    ensures o.Success? ==> r.body == o.value
    ensures o.RpcError? ==> r.body == ErrorEnvelope(o.code, o.message)
    ensures o.OtherFailure? ==> r.body == ErrorEnvelope(Some(JNum(FailureCode)), o.text)
  {
    match o
    case Success(value) => Reply(200, JsonMediaType, value)
    case RpcError(code, message) => Reply(200, JsonMediaType, ErrorEnvelope(code, message))
    case OtherFailure(text) => Reply(500, JsonMediaType, ErrorEnvelope(Some(JNum(FailureCode)), text))
  }

  /** Sends one JSON-RPC call as a POST through the transport and maps how it
      settles to a reply. Returns the reply and the request it sent. */
  method SendJsonRpcRequest(url: string, rpcMethod: Option<string>, params: Json,
                            username: Option<Json>, password: Option<Json>, channel: Channel)
    returns (reply: Reply, sent: HttpRequest)
    ensures sent.verb == "POST"
    ensures sent.headers == RequestHeaders(username, password)
    ensures sent.body == RequestObject(rpcMethod, params, channel.requestId)
    ensures reply == ReplyFor(Exchange(channel.httpProxy(url, sent), channel.jsonParse))
    ensures reply.contentType == JsonMediaType && (reply.status == 200 || reply.status == 500)
  {
    var headers := BuildHeaders(username, password);
    sent := HttpRequest("POST", headers, RequestObject(rpcMethod, params, channel.requestId));
    var outcome: Outcome;
    var transported := channel.httpProxy(url, sent);
    match transported {
      case Threw(failure) =>
        outcome := OtherFailure(failure);
      case Answered(status, data) =>
        if status == 200 {
          match channel.jsonParse(data) {
            case Malformed(failure) =>
              outcome := OtherFailure(failure);
            case Parsed(json) =>
              var normalised := NormaliseEnvelope(json);
              if normalised.Err? {
                outcome := OtherFailure(normalised.failure);
              } else {
                outcome := Settle(normalised.value);
              }
          }
        } else {
          outcome := OtherFailure(ErrorString(data));
        }
    }
    reply := ReplyFor(outcome);
  }

  /** Normalising an envelope twice is the same as normalising it once. */
  lemma NormaliseIdempotent(json: Json)
    requires NormaliseEnvelope(json).Ok?
    ensures NormaliseEnvelope(NormaliseEnvelope(json).value) == NormaliseEnvelope(json)
  {
  }

  /** After normalisation an envelope never pairs a truthy `error` with a null
      `result`: section 5 of the JSON-RPC 2.0 Specification says `result` must
      not exist when there was an error. */
  lemma NormalisedEnvelopeHasNoNullResultBesideError(json: Json)
    requires NormaliseEnvelope(json).Ok?
    ensures var e := NormaliseEnvelope(json).value;
      !(Present(Get(e, "error")) && Get(e, "result") == Some(JNull))
  {
  }

  /** A status other than 200 never reaches the parser: whatever the parser
      would do, the call fails with `Error(body)`, and the reply is 500 with
      code 2 and the message "Error: " followed by the body. */
  lemma NonOkStatusNeverParsed(status: int, data: string, parse: string -> ParseResult, other: string -> ParseResult)
    requires status != 200
    ensures Exchange(Answered(status, data), parse) == Exchange(Answered(status, data), other)
    ensures ReplyFor(Exchange(Answered(status, data), parse)) ==
      Reply(500, JsonMediaType, ErrorEnvelope(Some(JNum(FailureCode)), ErrorString(data)))
    ensures data != "" ==> ErrorString(data) == "Error: " + data
  {
  }

  /** An envelope that carries an error object (beside a null or absent
      `result`) is an RPC error: the reply is 200 and repeats the target's
      `code` and `message` exactly. */
  lemma RpcErrorPassesThrough(data: string, parse: string -> ParseResult, fields: map<string, Json>,
                              code: Json, message: string)
    requires parse(data) == Parsed(JObj(fields))
    requires "result" !in fields || fields["result"] == JNull
    requires "error" in fields && fields["error"].JObj?
    requires "code" in fields["error"].fields && fields["error"].fields["code"] == code
    requires "message" in fields["error"].fields && fields["error"].fields["message"] == JStr(message)
    ensures ReplyFor(Exchange(Answered(200, data), parse)) ==
      Reply(200, JsonMediaType, JObj(map["result" := JNull,
                                         "error" := JObj(map["code" := code, "message" := JStr(message)])]))
  {
    var error := map["message" := JStr(message)];
    assert error["code" := code] == map["code" := code, "message" := JStr(message)];
  }

  /** An envelope with a defined `result` and a falsy `error` is a success:
      the reply is 200 and its body is the result value itself, not an
      envelope around it. A genuine null result counts as a success too. */
  lemma SuccessPassesResult(data: string, parse: string -> ParseResult, fields: map<string, Json>)
    requires parse(data) == Parsed(JObj(fields))
    requires "result" in fields
    requires "error" !in fields || !Truthy(fields["error"])
    ensures ReplyFor(Exchange(Answered(200, data), parse)) == Reply(200, JsonMediaType, fields["result"])
  {
  }

  /** A non-null `result` beside a truthy `error` is left as it is, and the
      client library then rejects it as an unexpected reply: 500. */
  lemma ResultBesideErrorFails(data: string, parse: string -> ParseResult, fields: map<string, Json>)
    requires parse(data) == Parsed(JObj(fields))
    requires "result" in fields && fields["result"] != JNull
    requires "error" in fields && Truthy(fields["error"])
    ensures ReplyFor(Exchange(Answered(200, data), parse)) ==
      Reply(500, JsonMediaType, ErrorEnvelope(Some(JNum(FailureCode)), "Error: " + UnexpectedReply))
  {
  }

  /** A body that parses to null fails with the TypeError of reading its
      `error`. */
  lemma NullBodyFails(data: string, parse: string -> ParseResult)
    requires parse(data) == Parsed(JNull)
    ensures ReplyFor(Exchange(Answered(200, data), parse)) ==
      Reply(500, JsonMediaType, ErrorEnvelope(Some(JNum(FailureCode)), NullEnvelopeFailure))
  {
  }

  /** The `authorization` header carries the credentials so that a server
      reads back exactly the widget's username and password (when the
      username, as a string, holds no colon). */
  lemma AuthorizationCarriesCredentials(username: Option<Json>, password: Option<Json>)
    requires Present(username) && Present(password)
    requires ':' !in ToJsString(username.value)
    ensures BasicAuth.Parse(RequestHeaders(username, password)["authorization"]) ==
      Some((ToJsString(username.value), ToJsString(password.value)))
  {
    BasicAuth.RoundTrip(ToJsString(username.value), ToJsString(password.value));
  }

  /** Conversely, a username whose string holds a colon is never read back as
      it was: the `authorization` header does not carry it faithfully. */
  lemma AuthorizationMisreadsColonUsername(username: Option<Json>, password: Option<Json>)
    requires Present(username) && Present(password)
    requires ':' in ToJsString(username.value)
    ensures BasicAuth.Parse(RequestHeaders(username, password)["authorization"]) !=
      Some((ToJsString(username.value), ToJsString(password.value)))
  {
    BasicAuth.ColonInUserIdIsMisread(ToJsString(username.value), ToJsString(password.value));
  }
}
