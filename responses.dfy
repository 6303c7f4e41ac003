/** Response unwrapping: what the handler registered by `_request` passes to
    the caller's callback for a decoded response. */
module Responses {
  import opened Js

  /** The `type` of an ErrorResponse; only UNKNOWN_BUCKET_TYPE is told apart. */
  datatype ErrorType = UNKNOWN_BUCKET_TYPE | OtherError(code: int)

  /** A decoded response. `take`, `put` and `status` are the three payload
      fields as the decoder leaves them (an object, or a falsy value when
      absent); `error` is the type of the ErrorResponse payload, if present. */
  datatype Response = Response(requestId: string, take: Value, put: Value, status: Value, error: Option<ErrorType>)

  /** What the callback receives: an error message, or `null` and a result. */
  datatype Outcome = Failed(message: string) | Succeeded(result: Value)

  const InvalidBucketSuffix := " is not a valid bucket type"

  /** An UNKNOWN_BUCKET_TYPE error becomes "<type> is not a valid bucket type";
      anything else, including another error type, succeeds with the take
      payload, else the put payload, else the status payload. */
  function Unwrap(r: Response, typeName: string): (o: Outcome)
    ensures o.Failed? <==> r.error == Some(UNKNOWN_BUCKET_TYPE)
    ensures o.Failed? ==> o.message == typeName + InvalidBucketSuffix
    ensures o.Succeeded? ==> (Truthy(o.result) <==> Truthy(r.take) || Truthy(r.put) || Truthy(r.status))
    ensures o.Succeeded? && Truthy(r.take) ==> o.result == r.take
    ensures o.Succeeded? && !Truthy(r.take) && Truthy(r.put) ==> o.result == r.put
    ensures o.Succeeded? && !Truthy(r.take) && !Truthy(r.put) ==> o.result == r.status
  {
    if r.error.Some? && r.error.value == UNKNOWN_BUCKET_TYPE then
      Failed(typeName + InvalidBucketSuffix)
    else
      var xs := [r.take, r.put, r.status];
      var v := OrChain(xs);
      assert Truthy(xs[0]) || Truthy(xs[1]) || Truthy(xs[2]) ==> Truthy(v);
      assert Truthy(v) ==> exists i :: 0 <= i < 3 && xs[i] == v && forall j :: 0 <= j < i ==> !Truthy(xs[j]);
      Succeeded(v)
  }
}
