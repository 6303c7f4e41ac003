/** The request dispatcher and correlation table as a state machine over the
    client's state: the current stream, what was written to it, the
    `pending_requests` table, and the once-only timeout wrappers that
    `_request` puts around non-WAIT callbacks.

    Every dispatched call consumes a token, a counter that names the call (and
    its wrapper, if any) so that deliveries to callers can be told apart. */
module Dispatcher {
  import opened Js
  import opened Requests
  import opened Responses
  import Config

  const SocketClosed := "The socket is closed."
  const RequestTimeout := "request timeout"

  /** `client.stream`: absent until the first connection, then the latest
      stream, which stops being writable when it closes. */
  datatype Link = NoStream | Stream(writable: bool)

  predicate Writable(l: Link) {
    l.Stream? && l.writable
  }

  /** A callback wrapped for a timeout: it calls through at most once, either
      with the first result it is given or, after `timeout` ms, with a timeout. */
  datatype Wrapper = Wrapper(callback: Callback, timeout: Value, fired: bool)

  /** The function registered in `pending_requests`: it calls `callback` (through
      its wrapper when `timed`) and names `typeName` in bucket-type errors. */
  datatype Handler = Handler(callback: Callback, token: nat, timed: bool, typeName: string)

  /** One call of a caller's callback. */
  datatype Delivery = Delivery(callback: Callback, token: nat, outcome: Outcome)

  /** What a step does beyond the state: nothing, call a callback, or throw. */
  datatype Effect = Quiet | Delivered(delivery: Delivery) | Threw(message: string)

  datatype State = State(
    options: map<string, Value>,
    stream: Link,
    written: seq<Request>,
    pending: map<string, Handler>,
    wrappers: map<nat, Wrapper>,
    nextToken: nat)

  datatype Next = Next(state: State, effect: Effect)

  /** What can happen to a client: a call of `_request`, a decoded response on
      the stream, a wrapper's timer running out, a new stream from the reconnect
      loop, and the current stream closing. */
  datatype Event = Send(call: Call) | Receive(response: Response) | Expire(token: nat) | Connected | Ended

  /** A freshly constructed client: no stream yet, an empty table. */
  function Init(options: map<string, Value>): State {
    State(options, NoStream, [], map[], map[], 0)
  }

  /** The timeout wrapper is installed exactly for a call with a callback whose
      method is not WAIT. */
  predicate TimerApplies(c: Call) {
    c.callback.Some? && c.request.kind != WAIT
  }

  /** Calls the callback wrapped under `token` with `o`: the first call goes
      through and marks the wrapper fired, any later one is swallowed. */
  function ThroughWrapper(s: State, token: nat, o: Outcome): (r: Next)
    ensures r.state.options == s.options && r.state.stream == s.stream && r.state.written == s.written
    ensures r.state.pending == s.pending && r.state.nextToken == s.nextToken
    ensures token in s.wrappers && !s.wrappers[token].fired ==>
      r.state.wrappers == s.wrappers[token := s.wrappers[token].(fired := true)]
      && r.effect == Delivered(Delivery(s.wrappers[token].callback, token, o))
    ensures !(token in s.wrappers && !s.wrappers[token].fired) ==> r == Next(s, Quiet)
  {
    if token in s.wrappers && !s.wrappers[token].fired then
      var w := s.wrappers[token];
      Next(s.(wrappers := s.wrappers[token := w.(fired := true)]), Delivered(Delivery(w.callback, token, o)))
    else Next(s, Quiet)
  }

  /** Calls `callback` with `o`: directly, or through its wrapper when `timed`. */
  function Fire(s: State, callback: Callback, token: nat, timed: bool, o: Outcome): (r: Next)
    ensures !timed ==> r == Next(s, Delivered(Delivery(callback, token, o)))
    ensures timed ==> r == ThroughWrapper(s, token, o)
  {
    if timed then ThroughWrapper(s, token, o)
    else Next(s, Delivered(Delivery(callback, token, o)))
  }

  /** `_request(request, type, callback)`. */
  function Dispatch(s: State, c: Call): (r: Next)
    ensures r.state.options == s.options && r.state.stream == s.stream
    ensures r.state.nextToken == s.nextToken + 1
    // the wrapper is installed first, for a callback of a non-WAIT request only
    ensures r.state.wrappers.Keys == s.wrappers.Keys + (if TimerApplies(c) then {s.nextToken} else {})
    ensures forall t :: t in s.wrappers && t != s.nextToken ==> r.state.wrappers[t] == s.wrappers[t]
    ensures TimerApplies(c) ==>
      r.state.wrappers[s.nextToken] == Wrapper(c.callback.value, Config.TimeoutOf(s.options), r.effect.Delivered?)
    // no writable stream: nothing written, nothing registered, the error reported
    ensures !Writable(s.stream) ==> r.state.written == s.written && r.state.pending == s.pending
    ensures !Writable(s.stream) && c.callback.None? ==> r.effect == Threw(SocketClosed)
    ensures !Writable(s.stream) && c.callback.Some? ==>
      r.effect == Delivered(Delivery(c.callback.value, s.nextToken, Failed(SocketClosed)))
    // writable stream: exactly one request written, then at most one entry registered
    ensures Writable(s.stream) ==> r.state.written == s.written + [c.request] && r.effect == Quiet
    ensures Writable(s.stream) && c.callback.None? ==> r.state.pending == s.pending
    ensures Writable(s.stream) && c.callback.Some? ==>
      r.state.pending == s.pending[c.request.id := Handler(c.callback.value, s.nextToken, TimerApplies(c), c.typeName)]
  {
    var s1 := Arm(s, c);
    if !Writable(s.stream) then
      if c.callback.None? then Next(s1, Threw(SocketClosed))
      else Fire(s1, c.callback.value, s.nextToken, TimerApplies(c), Failed(SocketClosed))
    else Next(WriteAndRegister(s1, c, s.nextToken), Quiet)
  }

  /** The first thing `_request` does: wrap a non-WAIT callback with a timer
      set to the configured timeout. The call takes the next token. */
  function Arm(s: State, c: Call): State {
    var token := s.nextToken;
    s.(nextToken := token + 1,
       wrappers := if TimerApplies(c) then s.wrappers[token := Wrapper(c.callback.value, Config.TimeoutOf(s.options), false)]
                   else s.wrappers)
  }

  /** Writing the request, then, for a call with a callback, registering its
      handler under the request id. */
  function WriteAndRegister(s: State, c: Call, token: nat): State {
    var s2 := s.(written := s.written + [c.request]);
    if c.callback.None? then s2
    else s2.(pending := s2.pending[c.request.id := Handler(c.callback.value, token, TimerApplies(c), c.typeName)])
  }

  /** The `'data'` listener and the handler it finds: an unknown `request_id` is
      dropped; a known one loses its entry, then its callback gets the
      unwrapped response. */
  function Route(s: State, resp: Response): (r: Next)
    ensures r.state.options == s.options && r.state.stream == s.stream && r.state.written == s.written
    ensures r.state.nextToken == s.nextToken
    ensures resp.requestId !in s.pending ==> r == Next(s, Quiet)
    ensures resp.requestId in s.pending ==> r.state.pending == s.pending - {resp.requestId}
    // an unwrapped (WAIT) handler always calls back with the unwrapped response
    ensures resp.requestId in s.pending && !s.pending[resp.requestId].timed ==>
      var h := s.pending[resp.requestId];
      r.effect == Delivered(Delivery(h.callback, h.token, Unwrap(resp, h.typeName))) && r.state.wrappers == s.wrappers
    // a wrapped handler calls back exactly when its wrapper has not fired, and fires it
    ensures resp.requestId in s.pending && s.pending[resp.requestId].timed ==>
      var h := s.pending[resp.requestId];
      if h.token in s.wrappers && !s.wrappers[h.token].fired then
        && r.effect == Delivered(Delivery(s.wrappers[h.token].callback, h.token, Unwrap(resp, h.typeName)))
        && r.state.wrappers == s.wrappers[h.token := s.wrappers[h.token].(fired := true)]
      else
        r.effect == Quiet && r.state.wrappers == s.wrappers
  {
    if resp.requestId in s.pending then
      var h := s.pending[resp.requestId];
      Fire(s.(pending := s.pending - {resp.requestId}), h.callback, h.token, h.timed, Unwrap(resp, h.typeName))
    else Next(s, Quiet)
  }

  /** A wrapper's timer running out: a wrapper that has not called through yet
      calls its callback with "request timeout". The entry in
      `pending_requests` is left where it is. */
  function Timeout(s: State, token: nat): (r: Next)
    ensures r.state.pending == s.pending && r.state.written == s.written && r.state.stream == s.stream
    ensures r.state.options == s.options && r.state.nextToken == s.nextToken
    ensures token in s.wrappers && !s.wrappers[token].fired ==>
      r.effect == Delivered(Delivery(s.wrappers[token].callback, token, Failed(RequestTimeout)))
      && r.state.wrappers == s.wrappers[token := s.wrappers[token].(fired := true)]
    ensures !(token in s.wrappers && !s.wrappers[token].fired) ==> r == Next(s, Quiet)
  {
    ThroughWrapper(s, token, Failed(RequestTimeout))
  }

  /** One event. A new stream is writable; a closed stream stays the current one
      but is no longer writable; neither stream event touches anything else or
      calls anyone back. */
  function Step(s: State, e: Event): (r: Next)
    ensures e.Send? ==> r == Dispatch(s, e.call)
    ensures e.Receive? ==> r == Route(s, e.response)
    ensures e.Expire? ==> r == Timeout(s, e.token)
    ensures e.Connected? ==> Writable(r.state.stream) && r.state.(stream := s.stream) == s && r.effect == Quiet
    ensures e.Ended? ==>
      && !Writable(r.state.stream) && (r.state.stream.Stream? <==> s.stream.Stream?)
      && r.state.(stream := s.stream) == s && r.effect == Quiet
  {
    match e
    case Send(c) => Dispatch(s, c)
    case Receive(resp) => Route(s, resp)
    case Expire(t) => Timeout(s, t)
    case Connected => Next(s.(stream := Stream(true)), Quiet)
    case Ended => Next(s.(stream := if s.stream.Stream? then Stream(false) else NoStream), Quiet)
  }

  function Emitted(e: Effect): seq<Delivery> {
    if e.Delivered? then [e.delivery] else []
  }

  datatype Trace = Trace(state: State, log: seq<Delivery>)

  /** The state after a sequence of events, and every callback call on the way. */
  function Run(s: State, events: seq<Event>): Trace
    decreases |events|
  {
    if events == [] then Trace(s, [])
    else
      var t := Run(s, events[..|events| - 1]);
      var n := Step(t.state, events[|events| - 1]);
      Trace(n.state, t.log + Emitted(n.effect))
  }

  predicate Answered(log: seq<Delivery>, token: nat) {
    exists i :: 0 <= i < |log| && log[i].token == token
  }

  /** What keeps every callback to at most one call: tokens are used once, a
      wrapper has fired exactly when its token has been delivered, and an
      unwrapped (WAIT) handler still in the table has not been delivered, and
      no two ids of the table share a handler's token. */
  predicate Inv(s: State, log: seq<Delivery>) {
    && (forall i, j :: 0 <= i < j < |log| ==> log[i].token != log[j].token)
    && (forall i :: 0 <= i < |log| ==> log[i].token < s.nextToken)
    && (forall t :: t in s.wrappers ==> t < s.nextToken && (s.wrappers[t].fired <==> Answered(log, t)))
    && (forall id :: id in s.pending ==> s.pending[id].token < s.nextToken)
    && (forall id :: id in s.pending && !s.pending[id].timed ==>
          s.pending[id].token !in s.wrappers && !Answered(log, s.pending[id].token))
    && (forall id1, id2 :: id1 in s.pending && id2 in s.pending && id1 != id2 ==>
          s.pending[id1].token != s.pending[id2].token)
  }

  lemma DeliveredAppend(log: seq<Delivery>, extra: seq<Delivery>, t: nat)
    requires |extra| <= 1
    ensures Answered(log + extra, t) <==> Answered(log, t) || (|extra| == 1 && extra[0].token == t)
  {
    if Answered(log + extra, t) {
      var i :| 0 <= i < |log + extra| && (log + extra)[i].token == t;
      if i < |log| {
        assert log[i].token == t;
      }
    }
    if |extra| == 1 && extra[0].token == t {
      assert (log + extra)[|log|].token == t;
    }
    if Answered(log, t) {
      var i :| 0 <= i < |log| && log[i].token == t;
      assert (log + extra)[i].token == t;
    }
  }

  /** Delivering through a handler or wrapper whose token the invariant says is
      still undelivered keeps the invariant. */
  lemma FireKeepsInv(s: State, log: seq<Delivery>, callback: Callback, token: nat, timed: bool, o: Outcome)
    requires Inv(s, log)
    requires token < s.nextToken
    requires !timed ==> token !in s.wrappers && !Answered(log, token)
    requires !timed ==> forall id :: id in s.pending && !s.pending[id].timed ==> s.pending[id].token != token
    ensures var n := Fire(s, callback, token, timed, o); Inv(n.state, log + Emitted(n.effect))
  {
    var n := Fire(s, callback, token, timed, o);
    var log' := log + Emitted(n.effect);
    forall t: nat ensures Answered(log', t) <==> Answered(log, t) || (n.effect.Delivered? && t == token) {
      DeliveredAppend(log, Emitted(n.effect), t);
    }
    if n.effect.Delivered? {
      assert !Answered(log, token);
      forall i | 0 <= i < |log| ensures log'[i].token != log'[|log|].token {
        assert log[i].token != token;
      }
    }
  }

  lemma ArmKeepsInv(s: State, log: seq<Delivery>, c: Call)
    requires Inv(s, log)
    ensures Inv(Arm(s, c), log) && !Answered(log, s.nextToken)
  {
  }

  lemma WriteAndRegisterKeepsInv(s: State, log: seq<Delivery>, c: Call, token: nat)
    requires Inv(s, log) && token + 1 == s.nextToken && (token !in s.wrappers <==> !TimerApplies(c))
    requires !Answered(log, token)
    requires forall id :: id in s.pending ==> s.pending[id].token < token
    ensures Inv(WriteAndRegister(s, c, token), log)
  {
  }

  lemma DispatchKeepsInv(s: State, log: seq<Delivery>, c: Call)
    requires Inv(s, log)
    ensures var n := Dispatch(s, c); Inv(n.state, log + Emitted(n.effect))
  {
    var s1 := Arm(s, c);
    ArmKeepsInv(s, log, c);
    if !Writable(s.stream) {
      if c.callback.Some? {
        FireKeepsInv(s1, log, c.callback.value, s.nextToken, TimerApplies(c), Failed(SocketClosed));
      }
    } else {
      WriteAndRegisterKeepsInv(s1, log, c, s.nextToken);
      assert log + [] == log;
    }
  }

  lemma RouteKeepsInv(s: State, log: seq<Delivery>, resp: Response)
    requires Inv(s, log)
    ensures var n := Route(s, resp); Inv(n.state, log + Emitted(n.effect))
  {
    if resp.requestId in s.pending {
      var h := s.pending[resp.requestId];
      var s1 := s.(pending := s.pending - {resp.requestId});
      assert Inv(s1, log);
      FireKeepsInv(s1, log, h.callback, h.token, h.timed, Unwrap(resp, h.typeName));
    } else {
      assert log + [] == log;
    }
  }

  lemma StepKeepsInv(s: State, log: seq<Delivery>, e: Event)
    requires Inv(s, log)
    ensures var n := Step(s, e); Inv(n.state, log + Emitted(n.effect))
  {
    match e
    case Send(c) => DispatchKeepsInv(s, log, c);
    case Receive(resp) => RouteKeepsInv(s, log, resp);
    case Expire(t) =>
      if t < s.nextToken {
        FireKeepsInv(s, log, Callback(0), t, true, Failed(RequestTimeout));
        assert Timeout(s, t) == Fire(s, Callback(0), t, true, Failed(RequestTimeout));
      } else {
        assert t !in s.wrappers;
        assert log + [] == log;
      }
    case Connected => assert log + [] == log;
    case Ended => assert log + [] == log;
  }

  lemma {:induction false} RunKeepsInv(s: State, events: seq<Event>)
    requires Inv(s, [])
    ensures Inv(Run(s, events).state, Run(s, events).log)
    decreases |events|
  {
    if events != [] {
      var t := Run(s, events[..|events| - 1]);
      RunKeepsInv(s, events[..|events| - 1]);
      StepKeepsInv(t.state, t.log, events[|events| - 1]);
    }
  }

  /** Over any sequence of events from a fresh client, no call's callback is
      called twice, and a call that got a timeout wrapper has had its callback
      called exactly when the wrapper has fired; a wrapper that has not fired
      will call through on its timeout (see TimeoutResolves). */
  lemma ExactlyOnce(options: map<string, Value>, events: seq<Event>)
    ensures var t := Run(Init(options), events);
      && (forall i, j :: 0 <= i < j < |t.log| ==> t.log[i].token != t.log[j].token)
      && (forall k :: k in t.state.wrappers ==> (t.state.wrappers[k].fired <==> Answered(t.log, k)))
  {
    RunKeepsInv(Init(options), events);
  }

  /** A wrapper that has not called through does so on its timeout, with the
      timeout error; the table entry stays. */
  lemma TimeoutResolves(s: State, token: nat)
    requires token in s.wrappers && !s.wrappers[token].fired
    ensures var n := Timeout(s, token);
      && n.effect == Delivered(Delivery(s.wrappers[token].callback, token, Failed(RequestTimeout)))
      && n.state.pending == s.pending
      && Timeout(n.state, token) == Next(n.state, Quiet)
  {
  }

  /** A second response with the same id changes nothing and calls nothing. */
  lemma SecondResponseIgnored(s: State, resp: Response)
    ensures var n := Route(s, resp); Route(n.state, resp) == Next(n.state, Quiet)
  {
  }

  /** A response arriving after its request timed out removes the entry but
      calls nothing: the wrapper has already called through. */
  lemma LateResponseAfterTimeout(s: State, resp: Response)
    requires resp.requestId in s.pending && s.pending[resp.requestId].timed
    requires s.pending[resp.requestId].token in s.wrappers
    ensures var n := Route(Timeout(s, s.pending[resp.requestId].token).state, resp);
      n.effect == Quiet && resp.requestId !in n.state.pending
  {
  }

  /** A second call under an id already in the table replaces its handler: the
      entry now carries the new call's token, the table keeps its size, and no
      entry refers to the replaced call any more. A replaced WAIT caller has no
      wrapper and has not been called back. */
  lemma CollisionOverwrites(s: State, log: seq<Delivery>, c: Call)
    requires Inv(s, log)
    requires Writable(s.stream) && c.callback.Some? && c.request.id in s.pending
    ensures var n := Dispatch(s, c); var h := s.pending[c.request.id];
      && n.state.pending[c.request.id].token == s.nextToken
      && |n.state.pending| == |s.pending|
      && Detached(n.state, h.token)
      && (!h.timed ==> h.token !in n.state.wrappers && !Answered(log, h.token))
  {
  }

  /** The call named by `token` has no table entry left. */
  predicate Detached(s: State, token: nat) {
    token < s.nextToken && forall id :: id in s.pending ==> s.pending[id].token != token
  }

  /** A call without a table entry can only hear from its timeout wrapper, and
      from nothing at all once it has none. */
  lemma DetachedStep(s: State, e: Event, token: nat)
    requires Detached(s, token)
    ensures var n := Step(s, e);
      && Detached(n.state, token)
      && (token !in s.wrappers ==> token !in n.state.wrappers)
      && (n.effect.Delivered? && n.effect.delivery.token == token ==>
            n.effect.delivery.outcome == Failed(RequestTimeout) && token in s.wrappers)
  {
  }

  lemma {:induction false} DetachedStaysSilent(s: State, events: seq<Event>, token: nat)
    requires Detached(s, token)
    ensures var t := Run(s, events);
      && Detached(t.state, token)
      && (token !in s.wrappers ==> token !in t.state.wrappers && !Answered(t.log, token))
      && (forall i :: 0 <= i < |t.log| && t.log[i].token == token ==> t.log[i].outcome == Failed(RequestTimeout))
    decreases |events|
  {
    if events != [] {
      var t := Run(s, events[..|events| - 1]);
      DetachedStaysSilent(s, events[..|events| - 1], token);
      var n := Step(t.state, events[|events| - 1]);
      DetachedStep(t.state, events[|events| - 1], token);
      DeliveredAppend(t.log, Emitted(n.effect), token);
      var log' := t.log + Emitted(n.effect);
      forall i | 0 <= i < |log'| && log'[i].token == token
        ensures log'[i].outcome == Failed(RequestTimeout)
      {
        if i < |t.log| {
          assert log'[i] == t.log[i];
        }
      }
    }
  }

  /** After a call reuses a pending id, every later callback call of the
      replaced caller is its timeout error, and a replaced WAIT caller is never
      called back. */
  lemma ReplacedCallerSilenced(s: State, log: seq<Delivery>, c: Call, events: seq<Event>)
    requires Inv(s, log)
    requires Writable(s.stream) && c.callback.Some? && c.request.id in s.pending
    ensures var h := s.pending[c.request.id]; var t := Run(Dispatch(s, c).state, events);
      && (forall i :: 0 <= i < |t.log| && t.log[i].token == h.token ==> t.log[i].outcome == Failed(RequestTimeout))
      && (!h.timed ==> !Answered(log, h.token) && !Answered(t.log, h.token))
  {
    CollisionOverwrites(s, log, c);
    DetachedStaysSilent(Dispatch(s, c).state, events, s.pending[c.request.id].token);
  }
}
