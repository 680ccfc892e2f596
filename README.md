# Edge router: route decision and request shaping

A Dafny model of the request path of a serverless HTTP edge router
(`router.ts`). For an inbound event, the router looks up the event's raw
path in a route table and parses the stored text as JSON. The stored
value's `type` decides the destination:

- `string` answers the stored `data` directly as `text/plain`;
- `url` proxies the request to the stored URL over HTTPS;
- `arn` invokes a remote function with caller-supplied credentials.

Anything else is answered with an error. The result `[status, data]` is
then normalised into the handler's `{statusCode, headers, body}`.

Modules, one per part of `router.ts`:

- `Js` (`js.dfy`): the JavaScript semantics the router leans on. It covers
  values as `JSON.parse` yields them, truthiness, `||`, property reads,
  `typeof … === 'object'`, `String.prototype.includes` and `JSON.stringify`
  with its string escaping. Escaping has a reader (`Unescape`), and
  `Unescape` undoes `Escape`.
- `Inbound` (`inbound.dfy`): the event. Its header table is the one field
  the router changes in place.
- `UrlForwarder` (`url_forwarder.dfy`): `forwardToUrl`. The `URL` object is
  a class whose search parameters `AppendQuery` extends in a loop.
  `StripHeaders` deletes headers from the event in a loop. The outbound
  method and body are chosen by pure functions. The transport's answer is
  turned into the promise's settlement.
- `ArnForwarder` (`arn_forwarder.dfy`): `forwardToArn`, which builds the
  invocation and collapses every failure into the generic error.
- `Router` (`router.ts`'s `route`, in `router.dfy`): the pieces are:
  - `Classify`, the branch the lookup callback takes;
  - `Normalise`, the final response construction;
  - `Route`, the whole decision as a function;
  - `HandleEvent`, the same run as a method against the collaborators.

External collaborators are inputs:

- the route-table lookup is a `StoreResult` value;
- the URL parser, the HTTPS transport and the function service are
  function-typed parameters (`parse`, `transport`, `invoke`).

Behaviour of `route` that is easy to miss:

- The discriminating field is `type`, not `kind`. A descriptor
  `{"kind":"string","data":"hi"}` is answered with 500 (`KindIsNotType`).
- A stored value that is not JSON makes `JSON.parse` throw inside the async
  lookup callback. The `try` around `getForwardRoute` does not see it, and
  the promise `route` awaits never settles. The model's reply is
  `Unsettled`, not a 500.
- A rejected `forwardToUrl` is thrown at the `await` inside the same
  callback. It also leaves `route` without a reply (`UrlFailureUnsettled`):
  the forwarder's generic 500 never reaches the caller.
- The body is not always taken verbatim. `responseData.body ||
  responseData` makes an empty body (an empty literal, an empty upstream
  response) become the whole `{headers, body}` object.
- A function that answers JSON `null` makes normalisation read a property
  of `null`. The `catch` then answers 500 with
  `{"error":"Error in processing request"}` (`ArnRouteResponse`).

## Model

| member | source | states |
|---|---|---|
| `Router.Classify` | router.ts:162-203 | The callback takes exactly one branch. It calls the URL forwarder iff the stored value is an object whose `type` is `url`, and the invoker iff it is `arn`. It stalls iff the stored text is not JSON. It answers 200 itself iff `type` is `string`. Every 500 it produces carries the router error or a message containing the raw path. |
| `Router.Literal` | router.ts:176-179 | The `string` route's result object has the `text/plain` header object under `headers` and the stored `data` under `body`. |
| `Router.NoRouteMessage` | router.ts:172 | The "no known route" message contains the event's raw path. |
| `Router.Normalise` | router.ts:211-228 | The status is kept. Headers are the result's own when truthy, otherwise `{Content-Type: application/json}`. The body is `responseData.body` when truthy, otherwise the whole `responseData`. Null or undefined data give the processing-error reply. The headers are always truthy. |
| `Router.ErrorObjectText` | router.ts:226 | `JSON.stringify({error: m})` is `{"error":"m"}` for a message without quotes, backslashes or control characters. |
| `Router.Route` | router.ts:158-229 | A store error gives `(500, "C1 router error")` with JSON headers. A missing key or JSON `null` gives 404 with a body containing the raw path. A non-JSON value gives no reply. A `string` route gives 200 with `text/plain` and the stored data as body, or the whole literal object when the data is falsy. A non-object or an unknown `type` gives 500 naming the raw path. |
| `Router.UrlRouteResponse` | router.ts:90-102 | For a `url` route the transport answers, the reply carries the upstream status and headers. The body is the upstream body, or the whole `{body, headers}` object when the upstream body is empty. |
| `Router.UrlFailureUnsettled` | router.ts:181-183 | A `url` route whose target does not parse, or whose request fails or is refused, produces no reply. |
| `Router.ArnRouteResponse` | router.ts:185-187 | An `arn` route always replies. A null query, a failed invocation or a payload that is not JSON gives `(500, "Error forwarding request")`. A JSON `null` payload gives the processing-error reply. Any other payload is normalised with the invocation's status code. |
| `Router.ProcessingError` | router.ts:223-227 | The `catch` answers 500 with JSON headers, and its body is the JSON text of `{error: "Error in processing request"}`. |
| `Router.KindIsNotType` | router.ts:174-194 | A descriptor keyed by `kind` rather than `type` is answered with 500. |
| `Router.LiteralHello` | router.ts:175-179 | `{"type":"string","data":"hi"}` is answered `(200, {Content-Type: text/plain}, "hi")`. |
| `Router.HandleEvent` | router.ts:158-209 | Running the dispatch against the collaborators gives `Route`'s reply for the event as it arrived. Only a `url` route with a parseable target changes the event's headers, to the sanitised table. It sends exactly the shaped request unless `https.request` refuses it, and then sends nothing. |
| `UrlForwarder.UrlObject.constructor` | router.ts:69 | The `URL` object starts with the target's own resource and search parameters. |
| `UrlForwarder.UrlObject.Append` | router.ts:72 | `searchParams.append` adds one pair after the existing ones. |
| `UrlForwarder.AppendQuery` | router.ts:69-74 | The URL's search parameters become the original ones followed by every inbound query pair in key order. A null parameter map adds nothing. |
| `UrlForwarder.Sanitised` | router.ts:77-83 | No `host` header remains, and no header whose name includes `amzn`. Every other header is kept with its value, and no header is added. |
| `UrlForwarder.SanitisedHasNoAmzn` | router.ts:78-83 | No remaining header name has the substring `amzn` at any position. |
| `UrlForwarder.StripHeaders` | router.ts:76-83 | Deleting `host` and then each `amzn` header in place leaves the event's headers equal to the sanitised table. |
| `UrlForwarder.OutboundMethod` | router.ts:86 | The outbound method is the inbound `httpMethod` when truthy and `POST` otherwise. It is never empty. |
| `UrlForwarder.EncodeBody` | router.ts:111-119 | Nothing is written iff the body is falsy. A string body is written as-is. Any other body is written as its JSON text. |
| `UrlForwarder.OutboundQuery` | router.ts:68-74 | The outbound search list has the target's parameters as a prefix. Inbound pair `j` sits at position `len(original) + j`. A null parameter map leaves it unchanged. |
| `UrlForwarder.Received` | router.ts:88-125 | The promise fulfils iff the transport answered, with the status and a `{body, headers}` object holding the accumulated body and the response headers. An `error` event rejects with `(500, "Error forwarding request")`. A synchronous throw from `https.request` rejects with `(500, "Error in forwarding request")`. |
| `UrlForwarder.OutboundRequest` | router.ts:66-88 | The request keeps the target's resource. Its search parameters are the target's own followed by every inbound pair in key order. Its headers are the sanitised table: no `host`, no name containing `amzn`, every other header kept with its value, none added. Its method is the inbound `httpMethod` when truthy and `POST` otherwise. It has a body iff the inbound body is truthy, and that body is the encoded one. |
| `UrlForwarder.ForwardOutcome` | router.ts:62-127 | An unparseable target rejects with `(500, "Error in forwarding request")`. Otherwise the settlement is what `Received` makes of the transport's report for the shaped request. So the promise fulfils iff the target parses and the transport answers, with `[statusCode, {body, headers}]`. An `error` event rejects with "Error forwarding request" and a refused request with "Error in forwarding request". Every rejection carries status 500. |
| `UrlForwarder.ForwardToUrl` | router.ts:62-127 | A target the URL parser refuses rejects with `(500, "Error in forwarding request")` and leaves the headers untouched. Otherwise the event's headers become the sanitised table, and the request shaped has the extended URL, the default-POST method, those headers and the encoded body. It is sent unless `https.request` refuses it. The settlement is the transport's answer for that request. |
| `ArnForwarder.InvocationFor` | router.ts:132-140 | The invocation targets the route's `data` and carries the inbound body as payload. Each credential is `undefined` iff no query parameter has its name, and otherwise a string stored under that name. |
| `ArnForwarder.InvocationFromEvent` | router.ts:132-140 | The invoked function receives the inbound body verbatim as its payload and the route's `data` as its name. Its `id`/`key` credential is the query parameter of that name. |
| `ArnForwarder.ForwardToArn` | router.ts:130-148 | A null query, a failed invocation or an unparseable payload all give `(500, "Error forwarding request")`. Otherwise the result is the invocation's status code with its parsed payload. |
| `Inbound.QueryParam` | router.ts:132 | Destructuring a parameter yields the string of the first parameter with that name, or `undefined` exactly when no parameter has that name. |
| `Js.IncludesIff` | router.ts:80 | `key.includes(sub)` holds iff `sub` occurs in `key` at some position. |
| `Js.IncludesSuffix` | router.ts:172 | A string includes every suffix of itself, so a message ending in the raw path includes it. |
| `Js.UnescapeEscape` | router.ts:117 | Reading back the escaped form of any string gives the string. |
| `Js.QuoteRoundTrip` | router.ts:117 | The quoted JSON text of a string reads back as that string. |
| `Js.Stringify` | router.ts:117 | `JSON.stringify` writes `null`, `true` and `false` literally. The text of a string reads back as that string. Arrays are bracketed and objects braced. |
| `Js.Or` | router.ts:217-218 | `a || b` is `a` when `a` is truthy and `b` otherwise, and it is truthy iff either operand is. |
| `Js.Get` | router.ts:217-218 | Reading a property of an object yields `undefined` or the value of a field of that name, and `undefined` when no field has that name. Any key other than `length` reads `undefined` on a non-object. |
| `Js.EscapePlain` | router.ts:226 | A string without quotes, backslashes or control characters is written unescaped. |
| `Js.UnescapeEscapeChar` | router.ts:117 | Decoding one escaped character followed by more text decodes that character, then the rest. |
| `Js.Lookup` | router.ts:175 | A property read yields the value of the first field of that name, and `undefined` iff no field has that name. |

## Left out

- Route-store connection handling (`cli`, `clientPromise`,
  `getForwardRoute`, router.ts:21-59 and 150-155) and all of `config.ts`.
  This is connection-state I/O. The lookup result is an input value
  (`StoreResult`), so a rejected client promise is not modelled.
- `entry` in `runme.ts`: process wiring only.
- Logging (router.ts:11-19 and every `log.*` call): it has no effect on
  results.
- The HTTPS transport (router.ts:90-108). Chunk accumulation and the error
  event are I/O. The transport is a function from the shaped request to its
  answer, whose body is the accumulated text. Which requests
  `https.request` refuses by throwing (non-`https:` protocols, invalid
  method or header characters) is part of that function, as `Refused`.
- The Lambda client, credentials and invocation (router.ts:132-140): a
  foreign SDK. They are a function from the built `Invocation` to its
  answer; `JSON.parse` of the payload is folded into that answer.
- WHATWG URL parsing and serialisation, including the percent-encoding of
  search parameters. The parser is the `parse` parameter. A URL is modelled
  as its text without the query, plus the ordered query pairs.
- `JSON.parse` of the stored value. The lookup carries the parsed value, or
  `Unparseable` when parsing throws.
- JavaScript numbers are unbounded integers here: no fractions, `NaN` or
  `-0`, no loss of precision above 2^53, and `NumberText` writes them in
  plain decimal where JavaScript switches to exponent form from 1e21.
  Property reads see an object's own fields, plus `length` on strings and
  arrays. The `length` of a string counts characters, not UTF-16 code
  units. Index keys such as `"0"` read `undefined` on arrays and strings,
  where JavaScript reads the element. Inherited prototype members are not
  modelled. Object keys are distinct. None of these is reached by the
  router's own property reads (`type`, `data`, `headers`, `body`).
- `JSON.stringify`: `toJSON` methods, non-finite numbers, and the escaping
  of lone surrogates are not modelled. `Unescape` rejects `\u` escapes of
  surrogate code units.
- A missing `event.headers`. `Event.headers` is always a table. In the code,
  a missing table makes `delete headers["host"]` throw and the forwarder
  reject. For the same reason the `headers || {'Content-Type':
  'application/text'}` fallback (router.ts:87) can never apply, and the
  outbound headers are always the sanitised table.
- What the runtime does with the unhandled rejection that leaves a reply
  `Unsettled` (a process warning or crash). It is outside `route`.
- The order in which `amzn` headers are deleted. `StripHeaders` picks them
  from a set. The resulting table does not depend on the order.
- Timeouts: the code has none, so none are modelled.
