/**
 * `route`: looks up the event's raw path in the route table, decides from
 * the stored value's `type` which of the three destinations answers, and
 * normalises what comes back into the handler's HTTP response.
 */
module Router {
  import opened Js
  import opened Inbound
  import opened UrlForwarder
  import opened ArnForwarder

  /** What the route-table callback receives, after `JSON.parse(result)`. */
  datatype StoreResult =
    | StoreError             // the callback's `err` is set
    | Missing                // no entry: `null`, which `JSON.parse` turns into `null`
    | Unparseable(raw: string) // the stored text is not JSON: `JSON.parse` throws
    | Stored(value: Value)   // the parsed stored value

  const RouterError := "C1 router error"
  const NoRoutePrefix := "No known c1 route for provided url: "

  /** The message of the 404 and of the misconfiguration 500. */
  function NoRouteMessage(rawPath: string): (m: string)
    ensures Includes(m, rawPath)
  {
    IncludesSuffix(NoRoutePrefix, rawPath);
    NoRoutePrefix + rawPath
  }

  const TextPlain := Obj([("Content-Type", Str("text/plain"))])
  const JsonHeaders := Obj([("Content-Type", Str("application/json"))])

  /** The branch the lookup callback takes. */
  datatype Step =
    | Resolve(status: int, data: Value) // resolves `[status, data]` itself, calling nothing
    | CallUrl(target: Value)            // resolves with `await forwardToUrl(event, data['data'])`
    | CallArn(arn: Value)               // resolves with `await forwardToArn(event, data['data'])`
    | Stall                             // throws inside the callback: the promise never settles

  /** The stored value is an object whose `type` is one of the three
      destination kinds. */
  predicate KnownRoute(v: Value) {
    IsNonNullObject(v) &&
    (Get(v, "type") == Str("string") || Get(v, "type") == Str("url") || Get(v, "type") == Str("arn"))
  }

  /** The stored value is an object whose `type` is `kind`. */
  predicate RouteOfType(v: Value, kind: string) {
    IsNonNullObject(v) && Get(v, "type") == Str(kind)
  }

  /** The `{headers, body}` object a `string` route resolves with. */
  function Literal(data: Value): (r: Value)
    ensures !Nullish(r) && Get(r, "headers") == TextPlain && Get(r, "body") == data
  {
    var fields := [("headers", TextPlain), ("body", data)];
    assert fields[1..] == [("body", data)];
    assert "headers" != "body";
    assert Lookup(fields, "body") == Lookup(fields[1..], "body");
    Obj(fields)
  }

  /** The decision of the lookup callback. Exactly one destination is taken:
      the forwarder only for `type` `url`, the invoker only for `arn`. */
  function Classify(rawPath: string, lookup: StoreResult): (s: Step)
    ensures s.CallUrl? <==> lookup.Stored? && RouteOfType(lookup.value, "url")
    ensures s.CallArn? <==> lookup.Stored? && RouteOfType(lookup.value, "arn")
    ensures s.Stall? <==> lookup.Unparseable?
    ensures s.Resolve? && s.status == 200 <==> lookup.Stored? && RouteOfType(lookup.value, "string")
    ensures s.Resolve? && s.status == 500 ==> s.data == Str(RouterError) || (s.data.Str? && Includes(s.data.s, rawPath))
  {
    match lookup
    case StoreError => Resolve(500, Str(RouterError))
    case Missing => Resolve(404, Str(NoRouteMessage(rawPath)))
    case Unparseable(_) => Stall
    case Stored(v) =>
      if v.Null? then Resolve(404, Str(NoRouteMessage(rawPath)))
      else if IsNonNullObject(v) then
        if Get(v, "type") == Str("string") then
          Resolve(200, Literal(Get(v, "data")))
        else if Get(v, "type") == Str("url") then CallUrl(Get(v, "data"))
        else if Get(v, "type") == Str("arn") then CallArn(Get(v, "data"))
        else Resolve(500, Str(NoRouteMessage(rawPath)))
      else Resolve(500, Str(NoRouteMessage(rawPath)))
  }

  /** The handler's result, or nothing when the promise it awaits never settles. */
  datatype Reply = Response(statusCode: int, headers: Value, body: Value) | Unsettled

  const ProcessingMessage := "Error in processing request"

  /** The reply of the `catch` around normalisation, taken when reading the
      result's properties throws; its body is the JSON text of
      `{error: ProcessingMessage}` (see `ErrorObjectText`). */
  function ProcessingError(): (r: Reply)
    ensures r.Response? && r.statusCode == 500 && r.headers == JsonHeaders
    ensures r.body == Str(Stringify(Obj([("error", Str(ProcessingMessage))])))
  {
    ErrorObjectText(ProcessingMessage);
    Response(500, JsonHeaders, Str("{\"error\":\"" + ProcessingMessage + "\"}"))
  }

  /** `JSON.stringify({error: message})` for a message with no quote,
      backslash or control character: the message appears unescaped. */
  lemma ErrorObjectText(message: string)
    requires forall i :: 0 <= i < |message| ==> message[i] != '"' && message[i] != '\\' && message[i] as int >= 0x20
    ensures Stringify(Obj([("error", Str(message))])) == "{\"error\":\"" + message + "\"}"
  {
    var error := Obj([("error", Str(message))]);
    var quoted := "\"" + message + "\"";
    assert Stringify(Str(message)) == quoted by { EscapePlain(message); }
    assert Quote("error") == "\"error\"";
    assert ObjectText(error, 1) == "";
    assert ObjectText(error, 0) == "\"error\"" + ":" + quoted;
    assert "{" + ("\"error\"" + ":" + quoted) + "}" == "{\"error\":\"" + message + "\"}";
  }

  /** Builds the response from `[statusCode, responseData]`: the status is
      kept, headers default to JSON, and the body is `responseData.body`
      when truthy and the whole `responseData` otherwise. Null or undefined
      data make the property reads throw, which yields the processing error. */
  function Normalise(status: int, data: Value): (r: Reply)
    ensures r.Response? && Truthy(r.headers)
    ensures Nullish(data) ==> r == ProcessingError()
    ensures !Nullish(data) ==>
              && r.statusCode == status
              && (Truthy(Get(data, "headers")) ==> r.headers == Get(data, "headers"))
              && (!Truthy(Get(data, "headers")) ==> r.headers == JsonHeaders)
              && (Truthy(Get(data, "body")) ==> r.body == Get(data, "body"))
              && (!Truthy(Get(data, "body")) ==> r.body == data)
  {
    if Nullish(data) then ProcessingError()
    else Response(status, Or(Get(data, "headers"), JsonHeaders), Or(Get(data, "body"), data))
  }

  /** `route(event)` given the lookup result and how the URL parser, the
      HTTPS transport and the function service behave. */
  function Route(event: Event, lookup: StoreResult, parse: Value -> Option<Url>,
                 transport: UrlForwarder.Request -> Transport, invoke: Invocation -> Answer): (r: Reply)
    reads event
    ensures lookup.StoreError? ==> r == Response(500, JsonHeaders, Str(RouterError))
    ensures lookup.Missing? || lookup == Stored(Null) ==>
              r.Response? && r.statusCode == 404 && r.headers == JsonHeaders && r.body.Str? && Includes(r.body.s, event.rawPath)
    ensures lookup.Unparseable? ==> r.Unsettled?
    ensures lookup.Stored? && RouteOfType(lookup.value, "string") ==>
              var data := Get(lookup.value, "data");
              && r.Response? && r.statusCode == 200 && r.headers == TextPlain
              && (Truthy(data) ==> r.body == data)
              && (!Truthy(data) ==> r.body == Literal(data))
    ensures lookup.Stored? && !lookup.value.Null? && !KnownRoute(lookup.value) ==>
              r == Response(500, JsonHeaders, Str(NoRouteMessage(event.rawPath)))
  {
    match Classify(event.rawPath, lookup)
    case Resolve(status, data) => Normalise(status, data)
    case CallUrl(target) =>
      var outcome := ForwardOutcome(event.httpMethod, event.headers, event.queryStringParameters, event.body,
                                    target, parse, transport);
      if outcome.Fulfilled? then Normalise(outcome.status, outcome.data) else Unsettled
    case CallArn(arn) =>
      var (status, data) := ForwardToArn(event.queryStringParameters, event.body, arn, invoke);
      Normalise(status, data)
    case Stall => Unsettled
  }

  /** A `url` route that the transport answers: the upstream status and
      headers pass through, and so does the body unless it is empty, in which
      case the whole `{body, headers}` object becomes the body. */
  lemma UrlRouteResponse(event: Event, v: Value, parse: Value -> Option<Url>,
                         transport: UrlForwarder.Request -> Transport, invoke: Invocation -> Answer)
    requires RouteOfType(v, "url") && parse(Get(v, "data")).Some?
    requires transport(OutboundRequest(parse(Get(v, "data")).value, event.httpMethod, event.headers,
                                       event.queryStringParameters, event.body)).Responded?
    ensures var t := transport(OutboundRequest(parse(Get(v, "data")).value, event.httpMethod, event.headers,
                                               event.queryStringParameters, event.body));
            var r := Route(event, Stored(v), parse, transport, invoke);
            && r.Response? && r.statusCode == t.statusCode && r.headers == Obj(t.headers)
            && (t.body != "" ==> r.body == Str(t.body))
            && (t.body == "" ==> r.body == Received(t).data)
  {
  }

  /** A `url` route whose target does not parse, or whose request fails or
      is refused, never produces a reply: the rejection is thrown inside the lookup
      callback, not caught, and the awaited promise stays pending. */
  lemma UrlFailureUnsettled(event: Event, v: Value, parse: Value -> Option<Url>,
                            transport: UrlForwarder.Request -> Transport, invoke: Invocation -> Answer)
    requires RouteOfType(v, "url")
    requires parse(Get(v, "data")).Some? ==>
               transport(OutboundRequest(parse(Get(v, "data")).value, event.httpMethod, event.headers,
                                         event.queryStringParameters, event.body)).TransportFailed? ||
               transport(OutboundRequest(parse(Get(v, "data")).value, event.httpMethod, event.headers,
                                         event.queryStringParameters, event.body)).Refused?
    ensures Route(event, Stored(v), parse, transport, invoke) == Unsettled
  {
  }

  /** An `arn` route: a null query or a failed invocation gives the generic
      forwarding error, and a function answering JSON `null` gives the
      processing error, because normalisation reads properties of `null`. */
  lemma ArnRouteResponse(event: Event, v: Value, parse: Value -> Option<Url>,
                         transport: UrlForwarder.Request -> Transport, invoke: Invocation -> Answer)
    requires RouteOfType(v, "arn")
    ensures var r := Route(event, Stored(v), parse, transport, invoke);
            && r.Response?
            && (event.queryStringParameters.None? ==>
                  r == Response(500, JsonHeaders, Str("Error forwarding request")))
            && (event.queryStringParameters.Some? ==>
                  var answer := invoke(InvocationFor(event.queryStringParameters.value, event.body, Get(v, "data")));
                  && (answer.InvokeFailed? ==> r == Response(500, JsonHeaders, Str("Error forwarding request")))
                  && (answer.Answered? && answer.payload.None? ==>
                        r == Response(500, JsonHeaders, Str("Error forwarding request")))
                  && (answer.Answered? && answer.payload == Some(Null) ==> r == ProcessingError())
                  && (answer.Answered? && answer.payload.Some? && !Nullish(answer.payload.value) ==>
                        r == Normalise(answer.statusCode, answer.payload.value)))
  {
  }

  /** A descriptor keyed by `kind` instead of `type` is not a route: the
      stored value `{"kind":"string","data":"hi"}` answers 500. */
  lemma KindIsNotType(event: Event, parse: Value -> Option<Url>,
                      transport: UrlForwarder.Request -> Transport, invoke: Invocation -> Answer)
    ensures var v := Obj([("kind", Str("string")), ("data", Str("hi"))]);
            Route(event, Stored(v), parse, transport, invoke).statusCode == 500
  {
    var v := Obj([("kind", Str("string")), ("data", Str("hi"))]);
    assert "kind" != "type" && "data" != "type";
    assert Get(v, "type") == Undefined;
  }

  /** The stored value `{"type":"string","data":"hi"}` answers 200 with a
      plain-text body `hi`. */
  lemma LiteralHello(event: Event, parse: Value -> Option<Url>,
                     transport: UrlForwarder.Request -> Transport, invoke: Invocation -> Answer)
    ensures var v := Obj([("type", Str("string")), ("data", Str("hi"))]);
            Route(event, Stored(v), parse, transport, invoke) == Response(200, TextPlain, Str("hi"))
  {
    var v := Obj([("type", Str("string")), ("data", Str("hi"))]);
    assert "data" != "type";
    assert Get(v, "data") == Str("hi");
  }

  /** `route(event)` run against the collaborators: classifies the lookup,
      calls at most one forwarder and normalises what it yields. The event's
      headers change only on a `url` route whose target parses. */
  method HandleEvent(event: Event, lookup: StoreResult, parse: Value -> Option<Url>,
                     transport: UrlForwarder.Request -> Transport, invoke: Invocation -> Answer)
    returns (reply: Reply, sent: Option<UrlForwarder.Request>)
    modifies event
    ensures reply == old(Route(event, lookup, parse, transport, invoke))
    ensures !Classify(event.rawPath, lookup).CallUrl? ==> sent.None? && event.headers == old(event.headers)
    ensures Classify(event.rawPath, lookup).CallUrl? ==>
              var target := Classify(event.rawPath, lookup).target;
              && (parse(target).None? ==> sent.None? && event.headers == old(event.headers))
              && (parse(target).Some? ==>
                    && event.headers == Sanitised(old(event.headers))
                    && var request := OutboundRequest(parse(target).value, event.httpMethod, old(event.headers),
                                                      event.queryStringParameters, event.body);
                       sent == (if transport(request).Refused? then None else Some(request)))
  {
    sent := None;
    match Classify(event.rawPath, lookup)
    case Resolve(status, data) =>
      reply := Normalise(status, data);
    case CallUrl(target) =>
      var outcome;
      sent, outcome := ForwardToUrl(event, target, parse, transport);
      reply := if outcome.Fulfilled? then Normalise(outcome.status, outcome.data) else Unsettled;
    case CallArn(arn) =>
      var (status, data) := ForwardToArn(event.queryStringParameters, event.body, arn, invoke);
      reply := Normalise(status, data);
    case Stall =>
      reply := Unsettled;
  }
}
