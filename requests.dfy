/** Request construction: the argument defaulting of `_takeOrWait` and
    `put`/`reset`, the `count === 'all'` choice, and the fixed shapes of
    `status` and `ping` requests. The request id is an input: it is a random
    7-character string in the client, and nothing makes it unique. */
module Requests {
  import opened Js

  datatype Method = TAKE | WAIT | PUT | STATUS | PING

  /** A request message. `count == Undefined` means the count field is not set. */
  datatype Request = Request(id: string, bucketType: string, key: string, kind: Method, count: Value, all: bool)

  /** What the `done` argument holds: omitted (`undefined`), `null`, or a function. */
  datatype Done = Omitted | NullDone | Given(f: Callback)

  /** A built request together with what `_request` receives beside it: the
      bucket type named in error messages and the caller's callback, if any. */
  datatype Call = Call(request: Request, typeName: string, callback: Option<Callback>)

  /** The arguments after defaulting. */
  datatype Args = Args(count: Value, done: Done)

  const All: Value := Str("all")
  const One: Value := Num(1)

  /** The callback `_request` sees: `done` when it is a function, none when it is
      `undefined` or `null` (both falsy). */
  function CallbackOf(done: Done): (c: Option<Callback>)
    ensures c.Some? <==> done.Given?
    ensures done.Given? ==> c.value == done.f
  {
    match done
    case Given(f) => Some(f)
    case _ => None
  }

  /** The arity rules shared by `_takeOrWait` (fallback 1) and `put` (fallback
      'all'): with `count` and `done` both omitted the count takes the fallback
      and there is no callback; a function in the `count` position is the
      callback and the count takes the fallback; otherwise both stay as given. */
  function Normalize(count: Value, done: Done, fallback: Value): (a: Args)
    requires !fallback.Fn?
    ensures !a.count.Fn?
    ensures count.Fn? ==> a.count == fallback && CallbackOf(a.done) == Some(count.f)
    ensures count == Undefined && done == Omitted ==> a.count == fallback && CallbackOf(a.done).None?
    ensures !count.Fn? && !(count == Undefined && done == Omitted) ==> a == Args(count, done)
  {
    if count == Undefined && done == Omitted then Args(fallback, NullDone)
    else if count.Fn? then Args(fallback, Given(count.f))
    else Args(count, done)
  }

  /** `count === 'all'` sets the `all` flag; any other value goes to `count`. */
  function SetAmount(r: Request, count: Value): (q: Request)
    requires r.count == Undefined && !r.all
    ensures q.id == r.id && q.bucketType == r.bucketType && q.key == r.key && q.kind == r.kind
    ensures q.all <==> count == All
    ensures q.count == if count == All then Undefined else count
  {
    if count == All then r.(all := true) else r.(count := count)
  }

  /** `_takeOrWait(method, type, key, count, done)`. */
  function TakeOrWait(m: Method, id: string, bucketType: string, key: string, count: Value, done: Done): (c: Call)
    requires m == TAKE || m == WAIT
    ensures c.request.id == id && c.request.bucketType == bucketType && c.request.key == key
    ensures c.request.kind == m && c.typeName == bucketType
    // 'all' sets the flag; an omitted or shifted count becomes 1; any other count is kept
    ensures c.request.all <==> count == All
    ensures c.request.all ==> c.request.count == Undefined
    ensures count.Fn? || (count == Undefined && done == Omitted) ==> c.request.count == One
    ensures !count.Fn? && !(count == Undefined && done == Omitted) && count != All ==> c.request.count == count
    // the callback is the function given in either position
    ensures c.callback == if count.Fn? then Some(count.f) else CallbackOf(done)
  {
    var a := Normalize(count, done, One);
    Call(SetAmount(Request(id, bucketType, key, m, Undefined, false), a.count), bucketType, CallbackOf(a.done))
  }

  /** `put(type, key, count, done)`, which `reset` also names. */
  function Put(id: string, bucketType: string, key: string, count: Value, done: Done): (c: Call)
    ensures c.request.id == id && c.request.bucketType == bucketType && c.request.key == key
    ensures c.request.kind == PUT && c.typeName == bucketType
    // an omitted or shifted count restores the whole bucket, as 'all' does
    ensures c.request.all <==> count == All || count.Fn? || (count == Undefined && done == Omitted)
    ensures c.request.all ==> c.request.count == Undefined
    ensures !c.request.all ==> c.request.count == count
    ensures c.callback == if count.Fn? then Some(count.f) else CallbackOf(done)
  {
    var a := Normalize(count, done, All);
    Call(SetAmount(Request(id, bucketType, key, PUT, Undefined, false), a.count), bucketType, CallbackOf(a.done))
  }

  /** `status(type, key, done)`. */
  function Status(id: string, bucketType: string, key: string, done: Done): (c: Call)
    ensures c.request.id == id && c.request.bucketType == bucketType && c.request.key == key
    ensures c.request.kind == STATUS && c.typeName == bucketType
    ensures c.request.count == Undefined && !c.request.all
    ensures c.callback == CallbackOf(done)
  {
    Call(Request(id, bucketType, key, STATUS, Undefined, false), bucketType, CallbackOf(done))
  }

  /** `ping(done)`. */
  function Ping(id: string, done: Done): (c: Call)
    ensures c.request.id == id && c.request.bucketType == "" && c.request.key == ""
    ensures c.request.kind == PING && c.typeName == ""
    ensures c.request.count == Undefined && !c.request.all
    ensures c.callback == CallbackOf(done)
  {
    Call(Request(id, "", "", PING, Undefined, false), "", CallbackOf(done))
  }

  /** The request shape the protocol expects: exactly one of `count` and `all`
      for TAKE, WAIT and PUT; neither for STATUS and PING; and a PING names no
      bucket type and no key. */
  predicate WellFormed(r: Request) {
    if r.kind in {TAKE, WAIT, PUT} then r.all != !Nullish(r.count)
    else !r.all && r.count == Undefined && (r.kind == PING ==> r.bucketType == "" && r.key == "")
  }

  /** The count argument that reaches `request.set('count', ...)` is `null` or
      `undefined`: an explicit `undefined`/`null` count passed beside a `done`
      argument, or a `null` count on its own. */
  predicate CountLost(count: Value, done: Done) {
    Nullish(count) && !(count == Undefined && done == Omitted)
  }

  /** Omitting the count is the same as passing the default one, and a callback
      in the count position is the same as the default count followed by it:
      `take('gold', 'k1')` is `take('gold', 'k1', 1)` and `put('gold', 'k1')` is
      `put('gold', 'k1', 'all')`. */
  lemma DefaultArguments(m: Method, id: string, bucketType: string, key: string, f: Callback)
    requires m == TAKE || m == WAIT
    ensures TakeOrWait(m, id, bucketType, key, Undefined, Omitted) == TakeOrWait(m, id, bucketType, key, One, Omitted)
    ensures TakeOrWait(m, id, bucketType, key, Fn(f), Omitted) == TakeOrWait(m, id, bucketType, key, One, Given(f))
    ensures Put(id, bucketType, key, Undefined, Omitted) == Put(id, bucketType, key, All, Omitted)
    ensures Put(id, bucketType, key, Fn(f), Omitted) == Put(id, bucketType, key, All, Given(f))
  {
  }

  /** Every take, wait and put request carries exactly one of `count` and `all`,
      except when the count that reaches it is `undefined` or `null`; status and
      ping requests are always well formed. */
  lemma BuiltRequestsWellFormed(m: Method, id: string, bucketType: string, key: string, count: Value, done: Done)
    requires m == TAKE || m == WAIT
    ensures WellFormed(TakeOrWait(m, id, bucketType, key, count, done).request) <==> !CountLost(count, done)
    ensures WellFormed(Put(id, bucketType, key, count, done).request) <==> !CountLost(count, done)
    ensures WellFormed(Status(id, bucketType, key, done).request)
    ensures WellFormed(Ping(id, done).request)
  {
    var a := Normalize(count, done, One);
    var b := Normalize(count, done, All);
    if !CountLost(count, done) {
      assert !Nullish(a.count) && !Nullish(b.count);
    } else {
      assert a.count == count && b.count == count;
    }
  }
}
