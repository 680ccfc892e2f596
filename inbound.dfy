/**
 * The HTTP-trigger event handed to the router. Only its header table is
 * ever changed, in place, by the URL forwarder.
 */
module Inbound {
  import opened Js

  /** Query parameters in the enumeration order of `Object.keys`. */
  type Query = seq<(string, string)>

  class Event {
    /** `event.httpMethod`; `undefined` when the trigger supplies none. */
    const httpMethod: Value
    /** `event.rawPath`, the key of the route table. */
    const rawPath: string
    /** `event.headers`, name to value. */
    var headers: map<string, string>
    /** `event.queryStringParameters`; `None` stands for `null` or absent. */
    const queryStringParameters: Option<Query>
    /** `event.body`: a string, a parsed JSON value, or `null`. */
    const body: Value

    constructor (httpMethod: Value, rawPath: string, headers: map<string, string>,
                 queryStringParameters: Option<Query>, body: Value)
      ensures this.httpMethod == httpMethod && this.rawPath == rawPath
      ensures this.headers == headers
      ensures this.queryStringParameters == queryStringParameters && this.body == body
    {
      this.httpMethod := httpMethod;
      this.rawPath := rawPath;
      this.headers := headers;
      this.queryStringParameters := queryStringParameters;
      this.body := body;
    }
  }

  /** The pairs `Object.keys(q).forEach` visits; none for a null map. */
  function QueryPairs(q: Option<Query>): Query {
    if q.Some? then q.value else []
  }

  /** The value a destructuring `const { name } = q` reads: the string
      stored under `name`, or `undefined`. */
  function QueryParam(q: Query, name: string): (r: Value)
    ensures r.Undefined? || r.Str?
    ensures r.Str? ==> exists i :: 0 <= i < |q| && q[i] == (name, r.s) && forall j :: 0 <= j < i ==> q[j].0 != name
    ensures r.Undefined? ==> forall i :: 0 <= i < |q| ==> q[i].0 != name
  {
    if q == [] then Undefined
    else if q[0].0 == name then Str(q[0].1)
    else QueryParam(q[1..], name)
  }
}
