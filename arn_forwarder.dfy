/**
 * `forwardToArn`: invokes a function synchronously with credentials taken
 * from the caller's query parameters and the inbound body as payload. The
 * function service (credentials, invocation, transport) is supplied as a
 * function from the invocation to what it answers.
 */
module ArnForwarder {
  import opened Js
  import opened Inbound

  /** One `RequestResponse` invocation: target, caller-supplied credentials
      (`undefined` when the parameter is missing) and payload. */
  datatype Invocation = Invocation(functionName: Value, id: Value, key: Value, payload: Value)

  /** What the invocation yields: a status code with the returned payload
      parsed as JSON (`None` when that parse throws), or a failed call. */
  datatype Answer = Answered(statusCode: int, payload: Option<Value>) | InvokeFailed

  /** The generic value every failure of `forwardToArn` resolves with. */
  const InvokeError: (int, Value) := (500, Str("Error forwarding request"))

  /** The invocation built from the event's query and body. */
  function InvocationFor(query: Query, body: Value, arn: Value): (r: Invocation)
    ensures r.functionName == arn && r.payload == body
    ensures r.id.Undefined? <==> forall i :: 0 <= i < |query| ==> query[i].0 != "id"
    ensures r.id.Str? ==> exists i :: 0 <= i < |query| && query[i] == ("id", r.id.s)
    ensures r.key.Undefined? <==> forall i :: 0 <= i < |query| ==> query[i].0 != "key"
    ensures r.key.Str? ==> exists i :: 0 <= i < |query| && query[i] == ("key", r.key.s)
  {
    Invocation(arn, QueryParam(query, "id"), QueryParam(query, "key"), body)
  }

  /** The function receives the inbound body verbatim, and each credential
      is the query parameter of that name when the caller sent one. */
  lemma InvocationFromEvent(query: Query, body: Value, arn: Value, name: string, value: string)
    requires name == "id" || name == "key"
    requires (name, value) in query
    requires forall i :: 0 <= i < |query| && query[i].0 == name ==> query[i].1 == value
    ensures InvocationFor(query, body, arn).payload == body
    ensures InvocationFor(query, body, arn).functionName == arn
    ensures (if name == "id" then InvocationFor(query, body, arn).id
             else InvocationFor(query, body, arn).key) == Str(value)
  {
  }

  /** `forwardToArn(event, arn)`: the invocation's status and parsed payload,
      or the generic error when the query is null, the call fails or its
      payload is not JSON. */
  function ForwardToArn(query: Option<Query>, body: Value, arn: Value, invoke: Invocation -> Answer): (r: (int, Value))
    ensures query.None? ==> r == InvokeError
    ensures query.Some? ==>
              var answer := invoke(InvocationFor(query.value, body, arn));
              && (answer.Answered? && answer.payload.Some? ==> r == (answer.statusCode, answer.payload.value))
              && (answer.InvokeFailed? || answer.payload.None? ==> r == InvokeError)
  {
    match query
    case None => InvokeError
    case Some(q) =>
      match invoke(InvocationFor(q, body, arn))
      case Answered(status, Some(payload)) => (status, payload)
      case _ => InvokeError
  }
}
