# limitd client: request dispatch and response correlation

A Dafny model of the core of the limitd node client (`client.js`). The client
talks to a rate-limiting server over one long-lived, auto-reconnecting stream.
The model covers three parts:

- **Request building.** `take`, `wait`, `put`/`reset`, `status` and `ping` build
  typed requests and default their arguments (module `Requests`).
- **The dispatcher `_request`.** It writes a request to the current stream. For a
  call with a callback it registers a handler in `pending_requests` under the
  request id. For non-WAIT calls it wraps the callback in a once-only timer.
- **Response routing.** The inbound `'data'` listener finds the handler by
  `request_id`. The handler removes its entry, then calls back with the unwrapped
  response (module `Responses`).

The options merge with defaults is modelled too (module `Config`). JavaScript
argument values and truthiness are in module `Js`.

The dispatcher and the correlation table are specified as a pure state machine
(module `Dispatcher`). Its state holds:

- the current stream (absent, writable, or closed);
- the log of written requests;
- the `pending_requests` table;
- the timeout wrappers that `_request` creates with the `cb` library.

Every dispatched call takes a token, which names the call and its wrapper. The
class `Client.LimitdClient` holds the same fields and updates them in place. Each
of its methods is proved equal to the state-machine function it performs:
`Dispatch` for the request methods, `Route` for `OnData`, `Timeout` for
`OnTimeout`, `Step` for the stream events, and the helpers `Fire` and
`ThroughWrapper` for `Invoke` and `InvokeWrapper`.

Over any sequence of calls, responses, timer expiries and stream changes,
`Dispatcher.ExactlyOnce` proves two things:

- no caller's callback is called twice;
- a wrapped callback has been called exactly when its wrapper has fired. A
  wrapper that has not fired calls through on its timeout.

In these places the model follows the code as written:

- **A timeout leaves the table entry in place** (client.js:94-99). The entry goes
  only when a response for the id arrives. The wrapper then swallows the late
  call, so exactly-once delivery comes from the wrapper, not from the table.
- **Registration happens after the write** (client.js:113, 117). In the model
  both happen in one step.
- **An id collision silently replaces the earlier handler** (client.js:117).
  After that, no table entry refers to the replaced call. A replaced WAIT
  caller is never called back, and a replaced wrapped caller can hear only its
  timeout (`Dispatcher.CollisionOverwrites`, `Dispatcher.ReplacedCallerSilenced`).
- **An explicit `undefined` or `null` count is passed on as it is.** The
  defaulting in `_takeOrWait` and `put` applies only when both count and
  callback are omitted, or when the count is a function. Any other count
  reaches `request.set('count', …)`, for example with
  `take(type, key, undefined, cb)`. The model takes `request.set` to store its
  value unchecked (see `SetAmount` under "Left out"). Under that assumption such
  a request carries neither `count` nor `all`. `Requests.BuiltRequestsWellFormed`
  states exactly when this happens (`Requests.CountLost`).
- **Other error types count as success.** An ErrorResponse whose type is not
  UNKNOWN_BUCKET_TYPE is not an error for the caller. The callback gets `null`
  and the first truthy payload, or the status field when no payload is truthy.
- **An explicit `undefined` option overrides its default.** `_.extend` copies
  own properties even when their value is `undefined`
  (`Config.OptionsOverride`).

## Model

| member | source | states |
|---|---|---|
| `Js.OrChain` | client.js:124-126 | a chain of JavaScript or-operators gives the first truthy operand, and the last operand when none is truthy |
| `Config.OrEmpty` | client.js:23 | a falsy options argument counts as an empty options object |
| `Config.Merge` | client.js:32 | the merged options hold the keys of both maps; a key the caller gives wins whatever its value; every other key keeps its default |
| `Config.DefaultsFillIn` | client.js:16-20 | with no options, the port is 9231, the host is 'localhost' and the timeout is 1000 |
| `Config.OptionsOverride` | client.js:32 | a port or timeout the caller gives is the one used, even when it is `undefined` |
| `Config.EndpointOf` | client.js:81 | the client connects to the configured port, and to the first truthy of address, hostname and host; when none is truthy it uses host |
| `Requests.CallbackOf` | client.js:93 | only a function in the callback position counts as a callback; `undefined` and `null` mean there is none |
| `Requests.Normalize` | client.js:131-137 | with both count and callback omitted, the count takes the default and there is no callback; a function in the count position becomes the callback and the count takes the default; otherwise both stay as given |
| `Requests.SetAmount` | client.js:146-150 | the `all` flag is set exactly when the count is 'all', and then no count is set; otherwise the count field gets the value |
| `Requests.TakeOrWait` | client.js:130-153 | a take/wait request keeps the caller's id, type, key and method; `all` is set exactly when the count is 'all'; an omitted or shifted count becomes 1 and any other count is kept; the callback is the function given in either position |
| `Requests.Put` | client.js:163-187 | the same for put (also called as reset), except that `all` is set when the count is 'all', omitted, or shifted by a function in its place |
| `Requests.Status` | client.js:189-198 | a status request keeps id, type and key, carries neither count nor all, and takes `done` as its callback when it is a function |
| `Requests.Ping` | client.js:200-209 | a ping request has an empty type and key and an empty type name for errors, carries neither count nor all, and takes `done` as its callback when it is a function |
| `Requests.DefaultArguments` | client.js:130-171 | `take(t, k)` builds the same call as `take(t, k, 1)`, and `take(t, k, cb)` the same as `take(t, k, 1, cb)`; likewise put with 'all' |
| `Requests.BuiltRequestsWellFormed` | client.js:139-209 | take/wait/put requests carry exactly one of count and all unless the count that reaches them is null or undefined (`CountLost`), in both directions; status and ping requests carry neither; a ping has an empty type and key |
| `Responses.Unwrap` | client.js:120-126 | the callback gets an error exactly for an UNKNOWN_BUCKET_TYPE error response, with the message "<type> is not a valid bucket type"; otherwise it gets the take payload, else the put payload, else the status field, and a truthy result exactly when some payload is truthy |
| `Dispatcher.ThroughWrapper` | client.js:94-99 | a wrapped callback is called only if its wrapper has not fired yet, and the wrapper is then marked fired; a later call is swallowed; the table and the stream are untouched |
| `Dispatcher.Fire` | client.js:104-106 | a callback without a wrapper (a WAIT call) is always called; a wrapped one goes through its wrapper; the handler calls back the same way (client.js:122-126) |
| `Dispatcher.Dispatch` | client.js:88-128 | a non-WAIT call with a callback gets a wrapper set to the configured timeout. Without a writable stream nothing is written or registered: a callback gets "The socket is closed.", and a call without one throws it. With a writable stream exactly one request is appended to the write log; without a callback the table is unchanged, with one the entry at the request id is added or replaced and nothing else changes |
| `Dispatcher.Route` | client.js:54-58 | a response whose id has no entry changes nothing and calls nothing; a matched handler removes its entry (client.js:118); an unwrapped (WAIT) handler then always calls back with the unwrapped response, and a wrapped one calls back with it exactly when its wrapper has not fired, which marks the wrapper fired |
| `Dispatcher.Timeout` | client.js:94-97 | a wrapper that has not fired calls its callback with "request timeout" and is marked fired; otherwise nothing happens; the table, the stream, the log and the token counter are left unchanged |
| `Dispatcher.Step` | client.js:54-61 | a new stream from the reconnect handler is writable and a closed one is not; neither stream event touches the table or calls anyone back; calls, responses and timer expiries are `Dispatch`, `Route` and `Timeout` |
| `Dispatcher.ExactlyOnce` | client.js:93-127 | over any sequence of events from a fresh client, no callback call is repeated, and a wrapped call has been answered exactly when its wrapper has fired |
| `Dispatcher.TimeoutResolves` | client.js:94-97 | an unfired wrapper delivers the timeout error once, keeps the table entry, and a second expiry does nothing |
| `Dispatcher.SecondResponseIgnored` | client.js:55-58 | a second response with the same id changes nothing and calls nothing |
| `Dispatcher.LateResponseAfterTimeout` | client.js:117-118 | a response arriving after its request timed out removes the entry but calls nothing |
| `Dispatcher.CollisionOverwrites` | client.js:117 | a second registration under a pending id replaces that handler and leaves the table size unchanged; no entry refers to the replaced call any more, and a replaced WAIT call has no wrapper and has not been called back |
| `Dispatcher.DetachedStaysSilent` | client.js:93-127 | over any later events, a call with no table entry is called back only with its timeout error, and never when it has no wrapper |
| `Dispatcher.ReplacedCallerSilenced` | client.js:117 | after a call reuses a pending id, the replaced caller hears at most its timeout error, and a replaced WAIT caller is never called back |
| `Client.LimitdClient.constructor` | client.js:22-34 | a new client holds the options merged over the defaults, an empty table and no stream |
| `Client.LimitdClient.Attach` | client.js:61 | a new writable stream replaces the current one; the table is kept |
| `Client.LimitdClient.StreamEnded` | client.js:102 | after the stream closes it is not writable, and pending entries stay |
| `Client.LimitdClient.InvokeWrapper` | client.js:94-99 | performs `Dispatcher.ThroughWrapper` on the object's fields |
| `Client.LimitdClient.Invoke` | client.js:104-106 | performs `Dispatcher.Fire` on the object's fields |
| `Client.LimitdClient.Request` | client.js:88-128 | performs `Dispatcher.Dispatch` on the object's fields: writes only to a writable stream, and registers exactly the entry at the request id when there is a callback |
| `Client.LimitdClient.TakeOrWait` | client.js:130-153 | dispatches the request built by `Requests.TakeOrWait` |
| `Client.LimitdClient.Take` | client.js:155-157 | a TAKE through `_takeOrWait` |
| `Client.LimitdClient.Wait` | client.js:159-161 | a WAIT through `_takeOrWait`; no timeout wrapper is created |
| `Client.LimitdClient.Put` | client.js:163-187 | dispatches the request built by `Requests.Put` |
| `Client.LimitdClient.Status` | client.js:189-198 | dispatches the STATUS request built by `Requests.Status` |
| `Client.LimitdClient.Ping` | client.js:200-209 | dispatches the PING request built by `Requests.Ping` |
| `Client.LimitdClient.OnData` | client.js:54-58 | performs `Dispatcher.Route`: an unknown id leaves the client unchanged and calls nothing; a known id loses its entry; a WAIT handler always calls back with the unwrapped response, and a wrapped one exactly when its wrapper has not fired, which marks it fired |
| `Client.LimitdClient.OnTimeout` | client.js:94-97 | performs `Dispatcher.Timeout` and leaves the table unchanged |

## Left out

- The reconnect loop, stream piping, the `ready`/`connect`/`close`/`error` events
  and `disconnect` (client.js:42-86) are left out. They are I/O and lifecycle
  code over foreign libraries. A new stream is modelled by `Attach`, and a stream
  that stops being writable by `StreamEnded`.
- SetAmount: `request.set` is modelled as storing the value unchecked. The
  protocol library's validation of `count` is not part of this model; if it
  rejected a value, the call would throw before anything is written.
- The `done` callback passed to the constructor is left out. It fires on the
  first connection.
- Length-prefix framing and protobuf encoding and decoding are left out. The
  write log holds `Request` values, and responses arrive already decoded as
  `Response` values. Decode errors are error events only, so they are left out
  too.
- `randomstring.generate(7)` is not modelled. The request id is a parameter, and
  nothing makes it unique.
- The `cb` library's timers are not modelled. A timer running out is the
  `Expire`/`OnTimeout` event for the wrapper's token. Its once-only behaviour is
  the wrapper's `fired` flag.
- The `process.nextTick` deferral of the "The socket is closed." callback is not
  modelled. The model delivers it in the same step as the call.
- A string options argument is left out, because it goes through `url.parse`,
  a foreign parser (client.js:27-30).
- A truthy non-function value in the callback position is not modelled. The
  client would fail with a TypeError when it invokes it; `Done` admits only
  omitted, `null` or a function.
- Lookups in `pending_requests` of inherited object keys such as `__proto__` or
  `constructor` are not modelled. The table is a plain map.
- Non-integer counts (fractions, NaN) are left out. Numbers are integers.
- Concurrency is left out. The client runs on one event loop.
