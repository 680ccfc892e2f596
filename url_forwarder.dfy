/**
 * `forwardToUrl`: shapes the outbound request for a `url` route (target URL
 * with the inbound query appended, sanitised headers, method, body) and
 * turns what the HTTPS transport reports into the value the promise settles
 * with. The URL parser and the transport are supplied as functions.
 */
module UrlForwarder {
  import opened Js
  import opened Inbound

  /** A parsed absolute URL: the text without its query, and the query as
      the ordered name/value pairs of `URL.searchParams`. */
  datatype Url = Url(resource: string, search: seq<(string, string)>)

  /** The mutable `URL` object built from the route's target. */
  class UrlObject {
    const resource: string
    var searchParams: seq<(string, string)>

    constructor (u: Url)
      ensures resource == u.resource && searchParams == u.search
    {
      resource := u.resource;
      searchParams := u.search;
    }

    /** `searchParams.append(name, value)`: adds a pair after the others. */
    method Append(name: string, value: string)
      modifies this
      ensures searchParams == old(searchParams) + [(name, value)]
    {
      searchParams := searchParams + [(name, value)];
    }
  }

  /** Appends every inbound query parameter, in key order, to the URL. */
  method AppendQuery(url: UrlObject, query: Option<Query>)
    modifies url
    ensures url.searchParams == old(url.searchParams) + QueryPairs(query)
  {
    if query.Some? {
      var q := query.value;
      var i := 0;
      while i < |q|
        invariant 0 <= i <= |q|
        invariant url.searchParams == old(url.searchParams) + q[..i]
      {
        url.Append(q[i].0, q[i].1);
        i := i + 1;
      }
      assert q[..|q|] == q;
    }
  }

  /** The header table left once `host` and every name containing `amzn`
      are removed; every other header keeps its value. */
  function Sanitised(headers: map<string, string>): (r: map<string, string>)
    ensures "host" !in r
    ensures forall name :: name in r ==> !Includes(name, "amzn")
    ensures forall name :: name in headers && name != "host" && !Includes(name, "amzn") ==>
              name in r && r[name] == headers[name]
    ensures r.Keys <= headers.Keys
  {
    map name | name in headers && name != "host" && !Includes(name, "amzn") :: headers[name]
  }

  /** No remaining header name has `amzn` at any position. */
  lemma SanitisedHasNoAmzn(headers: map<string, string>)
    ensures forall name, i: nat :: name in Sanitised(headers) ==> !OccursAt(name, "amzn", i)
  {
    forall name | name in Sanitised(headers)
      ensures forall i: nat :: !OccursAt(name, "amzn", i)
    {
      IncludesIff(name, "amzn");
    }
  }

  /** Deletes `host`, then every header whose name contains `amzn`, from
      the event's own header table. */
  method StripHeaders(event: Event)
    modifies event
    ensures event.headers == Sanitised(old(event.headers))
  {
    event.headers := event.headers - {"host"};
    ghost var start := event.headers;
    var pending := event.headers.Keys;
    while pending != {}
      invariant pending <= start.Keys
      invariant event.headers.Keys == set name | name in start && (name in pending || !Includes(name, "amzn"))
      invariant forall name :: name in event.headers ==> event.headers[name] == start[name]
      decreases pending
    {
      var name :| name in pending;
      if Includes(name, "amzn") {
        event.headers := event.headers - {name};
      }
      pending := pending - {name};
    }
  }

  /** The request handed to the transport. */
  datatype Request = Request(url: Url, verb: Value, headers: map<string, string>, body: Option<string>)

  /** `event.httpMethod || 'POST'`. */
  function OutboundMethod(httpMethod: Value): (m: Value)
    ensures Truthy(m)
    ensures Truthy(httpMethod) ==> m == httpMethod
    ensures !Truthy(httpMethod) ==> m == Str("POST")
  {
    Or(httpMethod, Str("POST"))
  }

  /** What is written to the request: nothing for a falsy body, a string
      body as it is, any other body as its JSON text. */
  function EncodeBody(body: Value): (r: Option<string>)
    ensures r.None? <==> !Truthy(body)
    ensures Truthy(body) && body.Str? ==> r == Some(body.s)
    ensures Truthy(body) && !body.Str? ==> r == Some(Stringify(body))
  {
    if !Truthy(body) then None
    else if body.Str? then Some(body.s)
    else Some(Stringify(body))
  }

  /** The request shaped for a parsed target from the event as it arrived. */
  function OutboundRequest(target: Url, httpMethod: Value, headers: map<string, string>,
                           query: Option<Query>, body: Value): (r: Request)
    ensures r.url.resource == target.resource
    ensures r.url.search == target.search + QueryPairs(query)
    ensures |r.url.search| == |target.search| + |QueryPairs(query)| && r.url.search[..|target.search|] == target.search
    ensures r.headers == Sanitised(headers)
    ensures "host" !in r.headers && r.headers.Keys <= headers.Keys
    ensures forall name :: name in r.headers ==> !Includes(name, "amzn")
    ensures forall name :: name in headers && name != "host" && !Includes(name, "amzn") ==>
              name in r.headers && r.headers[name] == headers[name]
    ensures r.verb == OutboundMethod(httpMethod) && Truthy(r.verb)
    ensures Truthy(httpMethod) ==> r.verb == httpMethod
    ensures !Truthy(httpMethod) ==> r.verb == Str("POST")
    ensures r.body == EncodeBody(body) && (r.body.None? <==> !Truthy(body))
  {
    Request(Url(target.resource, target.search + QueryPairs(query)),
            OutboundMethod(httpMethod), Sanitised(headers), EncodeBody(body))
  }

  /** The target's own query parameters come first, then one pair per
      inbound parameter in key order; a null parameter map adds nothing. */
  lemma OutboundQuery(target: Url, httpMethod: Value, headers: map<string, string>,
                      query: Option<Query>, body: Value)
    ensures var search := OutboundRequest(target, httpMethod, headers, query, body).url.search;
      && |search| == |target.search| + |QueryPairs(query)|
      && search[..|target.search|] == target.search
      && (forall j :: 0 <= j < |QueryPairs(query)| ==> search[|target.search| + j] == QueryPairs(query)[j])
      && (query.None? ==> search == target.search)
  {
  }

  /** What the HTTPS transport reports for a request:
      - `Responded`: the status, the body accumulated from every chunk and
        the response headers (each a string, or an array of strings for
        `set-cookie`);
      - `TransportFailed`: the request's `error` event fired;
      - `Refused`: `https.request` threw before anything was sent (a
        protocol other than `https:`, an invalid method or header). */
  datatype Transport =
    | Responded(statusCode: int, body: string, headers: seq<(string, Value)>)
    | TransportFailed
    | Refused

  /** How the promise returned by `forwardToUrl` settles. */
  datatype Settlement = Fulfilled(status: int, data: Value) | Rejected(status: int, reason: string)

  /** The settlement for what the transport reports: a response fulfils,
      an `error` event rejects from its handler, and a synchronous throw
      rejects from the surrounding `catch`. */
  function Received(t: Transport): (s: Settlement)
    ensures s.Fulfilled? <==> t.Responded?
    ensures t.Responded? ==>
              && s.status == t.statusCode && s.data.Obj?
              && Get(s.data, "body") == Str(t.body) && Get(s.data, "headers") == Obj(t.headers)
    ensures t.TransportFailed? ==> s == Rejected(500, "Error forwarding request")
    ensures t.Refused? ==> s == Rejected(500, "Error in forwarding request")
  {
    match t
    case Responded(status, body, headers) =>
      var fields := [("body", Str(body)), ("headers", Obj(headers))];
      assert fields[1..] == [("headers", Obj(headers))];
      assert Lookup(fields, "headers") == Lookup(fields[1..], "headers");
      Fulfilled(status, Obj(fields))
    case TransportFailed => Rejected(500, "Error forwarding request")
    case Refused => Rejected(500, "Error in forwarding request")
  }

  /** The settlement of `forwardToUrl(event, target)`, given how the URL
      parser treats the target and how the transport answers a request. */
  function ForwardOutcome(httpMethod: Value, headers: map<string, string>, query: Option<Query>, body: Value,
                          target: Value, parse: Value -> Option<Url>, transport: Request -> Transport): (s: Settlement)
    ensures parse(target).None? ==> s == Rejected(500, "Error in forwarding request")
    ensures parse(target).Some? ==>
              s == Received(transport(OutboundRequest(parse(target).value, httpMethod, headers, query, body)))
    ensures s.Fulfilled? ==>
              parse(target).Some? &&
              transport(OutboundRequest(parse(target).value, httpMethod, headers, query, body)).Responded?
    ensures s.Rejected? ==> s.status == 500
  {
    match parse(target)
    case None => Rejected(500, "Error in forwarding request")
    case Some(u) => Received(transport(OutboundRequest(u, httpMethod, headers, query, body)))
  }

  /** `forwardToUrl`: an unparseable target rejects before anything is
      touched; otherwise the query is appended, the event's headers are
      stripped in place and the shaped request is sent, unless
      `https.request` refuses it. */
  method ForwardToUrl(event: Event, target: Value, parse: Value -> Option<Url>, transport: Request -> Transport)
    returns (sent: Option<Request>, outcome: Settlement)
    modifies event
    ensures outcome == ForwardOutcome(event.httpMethod, old(event.headers), event.queryStringParameters,
                                      event.body, target, parse, transport)
    ensures parse(target).None? ==> sent.None? && event.headers == old(event.headers)
    ensures parse(target).Some? ==>
              && event.headers == Sanitised(old(event.headers))
              && var request := OutboundRequest(parse(target).value, event.httpMethod, old(event.headers),
                                                event.queryStringParameters, event.body);
                 sent == (if transport(request).Refused? then None else Some(request))
  {
    var parsed := parse(target);
    if parsed.None? {
      return None, Rejected(500, "Error in forwarding request");
    }
    var url := new UrlObject(parsed.value);
    AppendQuery(url, event.queryStringParameters);
    StripHeaders(event);
    var request := Request(Url(url.resource, url.searchParams), OutboundMethod(event.httpMethod),
                           event.headers, EncodeBody(event.body));
    var answer := transport(request);
    sent := if answer.Refused? then None else Some(request);
    outcome := Received(answer);
  }
}
