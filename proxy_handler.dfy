/** `jsonrpcProxyHandler` (src/utils/proxy/handlers/jsonrpc.js): validates the
    query, looks up the service's widget and its API template, forwards the
    call with `sendJsonRpcRequest` and writes to the response. The service
    configuration, the widget registry and URL templating are inputs. The
    response object records every status-and-body write made to it, in
    order. */
module ProxyHandler {

  import opened Wrappers
  import opened JsonValues
  import opened JsonRpcClient

  /** The query parameters; None is an absent parameter. */
  datatype Query = Query(group: Option<string>, service: Option<string>, endpoint: Option<string>)

  /** A service's widget configuration. */
  datatype Widget = Widget(widgetType: string, username: Option<Json>, password: Option<Json>, fields: map<string, Json>)

  /** A widget registry entry; `api` is its URL template, if it has one. */
  datatype WidgetDefinition = WidgetDefinition(api: Option<string>)

  /** The collaborators of the handler: `getServiceWidget` (a missing pair
      stands for an undefined widget), the `widgets` registry, `formatApiCall`
      and what one JSON-RPC exchange uses. */
  datatype Services = Services(
    serviceWidgets: map<(string, string), Widget>,
    widgets: map<string, WidgetDefinition>,
    formatApiCall: (string, Widget) -> string,
    channel: Channel)

  /** One write to the response: `res.status(s).json(body)` or
      `res.status(s).end(data)`. */
  datatype Write = SentJson(status: int, body: Json) | Ended(status: int, body: Json)

  /** How the handler's promise settles. */
  datatype Completion = Returned | Rejected(failure: string)

  /** Everything one run of the handler does: its writes in order, the JSON-RPC
      requests it sent with their URLs, and how it settled. */
  datatype Run = Run(writes: seq<Write>, sent: seq<(string, HttpRequest)>, completion: Completion)

  const InvalidServiceBody: Json := JObj(map["error" := JStr("Invalid proxy service type")])
  const NoApiBody: Json := JObj(map["error" := JStr("Service does not support API calls")])

  /** `String(e)` for the TypeError thrown by reading `type` of undefined. */
  const UndefinedWidgetFailure: string := "TypeError: Cannot read properties of undefined (reading 'type')"

  /** The response object: its status code and the writes made to it. */
  class ServerResponse {
    var statusCode: int
    var writes: seq<Write>

    constructor ()
      ensures statusCode == 200 && writes == []
    {
      statusCode := 200;
      writes := [];
    }

    method Status(code: int)
      modifies this
      ensures statusCode == code && writes == old(writes)
    {
      statusCode := code;
    }

    method SendJson(body: Json)
      modifies this
      ensures statusCode == old(statusCode)
      ensures writes == old(writes) + [SentJson(statusCode, body)]
    {
      writes := writes + [SentJson(statusCode, body)];
    }

    method End(body: Json)
      modifies this
      ensures statusCode == old(statusCode)
      ensures writes == old(writes) + [Ended(statusCode, body)]
    {
      writes := writes + [Ended(statusCode, body)];
    }
  }

  /** `widgets?.[type]?.api`. */
  function ApiTemplate(widgets: map<string, WidgetDefinition>, widgetType: string): (r: Option<string>)
    ensures widgetType in widgets ==> r == widgets[widgetType].api
    ensures widgetType !in widgets ==> r.None?
    ensures r.Some? ==> widgetType in widgets && widgets[widgetType].api == r
  {
    if widgetType in widgets then widgets[widgetType].api else None
  }

  /** The widget `getServiceWidget` resolves the pair to, or None. */
  function LookupWidget(services: Services, group: string, service: string): Option<Widget>
  {
    if (group, service) in services.serviceWidgets then Some(services.serviceWidgets[(group, service)]) else None
  }

  /** The request the handler makes `sendJsonRpcRequest` send for a widget:
      the endpoint as the method and null params. */
  function ForwardedRequest(widget: Widget, endpoint: Option<string>, channel: Channel): HttpRequest
  {
    HttpRequest("POST", RequestHeaders(widget.username, widget.password), RequestObject(endpoint, JNull, channel.requestId))
  }

  /** What the handler does, as written: a missing identifier writes 400; an
      undefined widget throws on reading its type; a type without an API
      template writes 403; otherwise the call is forwarded, its status and
      data are written, and control falls through to the 400 write. */
  function HandlerRun(q: Query, services: Services): (r: Run)
    ensures |r.sent| <= 1 && |r.writes| <= 2
    ensures r.completion.Rejected? <==> r.writes == []
    ensures |r.writes| == 2 <==> |r.sent| == 1
    ensures r.writes != [] ==> r.writes[|r.writes| - 1].SentJson?
  {
    if NonEmpty(q.group) && NonEmpty(q.service) then
      match LookupWidget(services, q.group.value, q.service.value)
      case None => Run([], [], Rejected(UndefinedWidgetFailure))
      case Some(widget) =>
        var api := ApiTemplate(services.widgets, widget.widgetType);
        if !NonEmpty(api) then Run([SentJson(403, NoApiBody)], [], Returned)
        else
          var url := services.formatApiCall(api.value, widget);
          var request := ForwardedRequest(widget, q.endpoint, services.channel);
          var reply := ReplyFor(Exchange(services.channel.httpProxy(url, request), services.channel.jsonParse));
          Run([Ended(reply.status, reply.body), SentJson(400, InvalidServiceBody)], [(url, request)], Returned)
    else Run([SentJson(400, InvalidServiceBody)], [], Returned)
  }

  /** The handler: writes to `res` in the order the source does and returns the
      requests it sent and how it settled. */
  method JsonRpcProxyHandler(q: Query, services: Services, res: ServerResponse)
    returns (sent: seq<(string, HttpRequest)>, completion: Completion)
    modifies res
    ensures res.writes == old(res.writes) + HandlerRun(q, services).writes
    ensures sent == HandlerRun(q, services).sent
    ensures completion == HandlerRun(q, services).completion
  {
    sent := [];
    if NonEmpty(q.group) && NonEmpty(q.service) {
      var widget := LookupWidget(services, q.group.value, q.service.value);
      if widget.None? {
        completion := Rejected(UndefinedWidgetFailure);
        return;
      }
      var api := ApiTemplate(services.widgets, widget.value.widgetType);
      if !NonEmpty(api) {
        res.Status(403);
        res.SendJson(NoApiBody);
        completion := Returned;
        return;
      }
      if widget.Some? {
        var url := services.formatApiCall(api.value, widget.value);
        var reply, request := SendJsonRpcRequest(url, q.endpoint, JNull, widget.value.username, widget.value.password, services.channel);
        sent := sent + [(url, request)];
        res.Status(reply.status);
        res.End(reply.body);
      }
    }
    res.Status(400);
    res.SendJson(InvalidServiceBody);
    completion := Returned;
  }

  /** A missing `group` or `service` writes only 400 with "Invalid proxy
      service type" and sends no request. */
  lemma MissingIdentifierIsRejected(q: Query, services: Services)
    requires !NonEmpty(q.group) || !NonEmpty(q.service)
    ensures HandlerRun(q, services) == Run([SentJson(400, InvalidServiceBody)], [], Returned)
  {
  }

  /** A widget type without an API template writes only 403 with "Service does
      not support API calls" and sends no request. */
  lemma NoApiIsForbidden(q: Query, services: Services, widget: Widget)
    requires NonEmpty(q.group) && NonEmpty(q.service)
    requires LookupWidget(services, q.group.value, q.service.value) == Some(widget)
    requires !NonEmpty(ApiTemplate(services.widgets, widget.widgetType))
    ensures HandlerRun(q, services) == Run([SentJson(403, NoApiBody)], [], Returned)
  {
  }

  /** A request is sent exactly when both identifiers are present, the widget
      resolves and its type has an API template; then exactly one is sent, to
      the templated URL, with the endpoint as the method and null params. */
  lemma RequestSentOnlyWithApi(q: Query, services: Services)
    ensures |HandlerRun(q, services).sent| <= 1
    ensures |HandlerRun(q, services).sent| == 1 <==>
      NonEmpty(q.group) && NonEmpty(q.service) &&
      LookupWidget(services, q.group.value, q.service.value).Some? &&
      NonEmpty(ApiTemplate(services.widgets, LookupWidget(services, q.group.value, q.service.value).value.widgetType))
    ensures |HandlerRun(q, services).sent| == 1 ==>
      var widget := LookupWidget(services, q.group.value, q.service.value).value;
      var (url, request) := HandlerRun(q, services).sent[0];
      url == services.formatApiCall(ApiTemplate(services.widgets, widget.widgetType).value, widget) &&
      request.verb == "POST" &&
      request.headers == RequestHeaders(widget.username, widget.password) &&
      Get(request.body, "params") == Some(JNull) &&
      Get(request.body, "method") == (if q.endpoint.Some? then Some(JStr(q.endpoint.value)) else None)
  {
  }

  /** When the call is forwarded, the reply's status and body are written
      first (its content type is not), and then, because control falls
      through, the 400 write follows. */
  lemma ForwardedCallWritesTwice(q: Query, services: Services)
    requires |HandlerRun(q, services).sent| == 1
    ensures var (url, request) := HandlerRun(q, services).sent[0];
      var reply := ReplyFor(Exchange(services.channel.httpProxy(url, request), services.channel.jsonParse));
      HandlerRun(q, services).writes == [Ended(reply.status, reply.body), SentJson(400, InvalidServiceBody)]
  {
    RequestSentOnlyWithApi(q, services);
  }

  /** An identifier pair `getServiceWidget` cannot resolve makes the handler
      throw on reading the widget's type, before the `if (widget)` guard: no
      write, no request. */
  lemma UnresolvedWidgetThrows(q: Query, services: Services)
    requires NonEmpty(q.group) && NonEmpty(q.service)
    requires LookupWidget(services, q.group.value, q.service.value).None?
    ensures HandlerRun(q, services) == Run([], [], Rejected(UndefinedWidgetFailure))
  {
  }

  /** Every status the handler writes is 200, 400, 403 or 500. */
  lemma WrittenStatuses(q: Query, services: Services)
    ensures forall w :: w in HandlerRun(q, services).writes ==> w.status in {200, 400, 403, 500}
  {
  }

  /** The handler with a `return` after the forwarded write and with the
      widget checked before its type is read: an unresolved widget falls to
      the 400 reply. */
  function CorrectedHandlerRun(q: Query, services: Services): (r: Run)
    ensures |r.writes| == 1 && r.completion == Returned
    ensures |r.sent| <= 1
    ensures r.writes[0].Ended? <==> |r.sent| == 1
  {
    if NonEmpty(q.group) && NonEmpty(q.service) then
      match LookupWidget(services, q.group.value, q.service.value)
      case None => Run([SentJson(400, InvalidServiceBody)], [], Returned)
      case Some(widget) =>
        var api := ApiTemplate(services.widgets, widget.widgetType);
        if !NonEmpty(api) then Run([SentJson(403, NoApiBody)], [], Returned)
        else
          var url := services.formatApiCall(api.value, widget);
          var request := ForwardedRequest(widget, q.endpoint, services.channel);
          var reply := ReplyFor(Exchange(services.channel.httpProxy(url, request), services.channel.jsonParse));
          Run([Ended(reply.status, reply.body)], [(url, request)], Returned)
    else Run([SentJson(400, InvalidServiceBody)], [], Returned)
  }

  /** The corrected handler writes to the response exactly once on every path
      and always returns; it sends the same requests as the handler as
      written, and its one write is the first write the handler as written
      makes whenever that one makes any. */
  lemma CorrectedHandlerWritesOnce(q: Query, services: Services)
    ensures |CorrectedHandlerRun(q, services).writes| == 1
    ensures CorrectedHandlerRun(q, services).completion == Returned
    ensures CorrectedHandlerRun(q, services).sent == HandlerRun(q, services).sent
    ensures HandlerRun(q, services).writes != [] ==>
      CorrectedHandlerRun(q, services).writes[0] == HandlerRun(q, services).writes[0]
  {
  }

  /** A configuration with one service, "sonarr1" in group "media", whose
      widget of type "sonarr" has an API template and the credentials
      user/pass; the target answers with `transported`. */
  function ExampleServices(transported: TransportResult, envelope: Json): Services
  {
    var widget := Widget("sonarr", Some(JStr("user")), Some(JStr("pass")), map[]);
    Services(
      map[("media", "sonarr1") := widget],
      map["sonarr" := WidgetDefinition(Some("{url}/jsonrpc"))],
      (api, w) => "http://sonarr.local/jsonrpc",
      Channel((url, request) => transported, text => Parsed(envelope), 1))
  }

  /** A successful target reply: the client sees 200 and the result value
      `{"version": "3.0"}` itself as the body. */
  lemma ExampleSuccess()
    ensures var version := JObj(map["version" := JStr("3.0")]);
      var services := ExampleServices(Answered(200, "{...}"), JObj(map["result" := version, "error" := JNull]));
      HandlerRun(Query(Some("media"), Some("sonarr1"), Some("system.status")), services).writes[0] == Ended(200, version)
  {
  }

  /** A target error beside a null result: the client sees 200 and the
      target's code and message. */
  lemma ExampleRpcError()
    ensures var error := JObj(map["code" := JNum(-32601), "message" := JStr("Method not found")]);
      var services := ExampleServices(Answered(200, "{...}"), JObj(map["result" := JNull, "error" := error]));
      HandlerRun(Query(Some("media"), Some("sonarr1"), Some("system.status")), services).writes[0] ==
        Ended(200, JObj(map["result" := JNull, "error" := error]))
  {
    var error := JObj(map["code" := JNum(-32601), "message" := JStr("Method not found")]);
    var fields := map["result" := JNull, "error" := error];
    var services := ExampleServices(Answered(200, "{...}"), JObj(fields));
    var q := Query(Some("media"), Some("sonarr1"), Some("system.status"));
    RpcErrorPassesThrough("{...}", services.channel.jsonParse, fields, JNum(-32601), "Method not found");
    RequestSentOnlyWithApi(q, services);
    ForwardedCallWritesTwice(q, services);
  }

  /** An unreachable target: the client sees 500, code 2 and the failure's
      text. */
  lemma ExampleUnreachable(failure: string)
    ensures var services := ExampleServices(Threw(failure), JNull);
      HandlerRun(Query(Some("media"), Some("sonarr1"), Some("system.status")), services).writes[0] ==
        Ended(500, JObj(map["result" := JNull, "error" := JObj(map["code" := JNum(2), "message" := JStr(failure)])]))
  {
    var error := map["message" := JStr(failure)];
    assert error["code" := JNum(2)] == map["code" := JNum(2), "message" := JStr(failure)];
  }
}
