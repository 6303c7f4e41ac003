/** The client object: the fields `LimitdClient` updates in place (its merged
    options, its current stream, the `pending_requests` table) together with the
    stream's write log and the timeout wrappers its calls created. Each method
    is proved equal to the function of the `Dispatcher` state machine it
    performs. */
module Client {
  import opened Js
  import opened Requests
  import opened Responses
  import opened Dispatcher
  import Config

  class LimitdClient {
    var options: map<string, Value>
    var stream: Link
    var written: seq<Request>
    var pending: map<string, Handler>
    var wrappers: map<nat, Wrapper>
    var nextToken: nat

    /** The whole client state as a value of the Dispatch model. */
    function Snapshot(): State
      reads this
    {
      State(options, stream, written, pending, wrappers, nextToken)
    }

    /** `new LimitdClient(options, done)` for an options object or a falsy
        options argument: the options merged over the defaults, an empty table,
        and no stream until the reconnect loop delivers one. */
    constructor (opts: Option<map<string, Value>>)
      ensures Snapshot() == Init(Config.Merge(Config.OrEmpty(opts)))
      ensures pending == map[] && written == [] && stream == NoStream
    {
      options := Config.Merge(Config.OrEmpty(opts));
      stream := NoStream;
      written := [];
      pending := map[];
      wrappers := map[];
      nextToken := 0;
    }

    /** `client.stream = stream` in the reconnect handler: a new, writable stream
        replaces the old one; the table is kept as it is. */
    method Attach()
      modifies this
      ensures stream == Stream(true)
      ensures Snapshot() == Step(old(Snapshot()), Connected).state
    {
      stream := Stream(true);
    }

    /** The current stream closing: it stays the client's stream but is no longer
        writable; pending requests are not failed. */
    method StreamEnded()
      modifies this
      ensures !Writable(stream) && pending == old(pending)
      ensures Snapshot() == Step(old(Snapshot()), Ended).state
    {
      if stream.Stream? {
        stream := Stream(false);
      }
    }

    /** Calls the callback wrapped under `token` with `o`, if that wrapper has
        not called through yet. */
    method InvokeWrapper(token: nat, o: Outcome) returns (effect: Effect)
      modifies this
      ensures var n := ThroughWrapper(old(Snapshot()), token, o);
        Snapshot() == n.state && effect == n.effect
    {
      if token in wrappers && !wrappers[token].fired {
        var w := wrappers[token];
        wrappers := wrappers[token := w.(fired := true)];
        effect := Delivered(Delivery(w.callback, token, o));
      } else {
        effect := Quiet;
      }
    }

    /** Calls `callback` with `o`, through its wrapper when `timed`. */
    method Invoke(callback: Callback, token: nat, timed: bool, o: Outcome) returns (effect: Effect)
      modifies this
      ensures var n := Fire(old(Snapshot()), callback, token, timed, o);
        Snapshot() == n.state && effect == n.effect
    {
      if timed {
        effect := InvokeWrapper(token, o);
      } else {
        effect := Delivered(Delivery(callback, token, o));
      }
    }

    /** `_request(request, type, callback)`. */
    method Request(c: Call) returns (effect: Effect)
      modifies this
      ensures var n := Dispatch(old(Snapshot()), c); Snapshot() == n.state && effect == n.effect
      ensures !Writable(old(stream)) ==> written == old(written) && pending == old(pending)
      ensures Writable(old(stream)) ==> written == old(written) + [c.request]
      ensures Writable(old(stream)) && c.callback.None? ==> pending == old(pending)
      ensures Writable(old(stream)) && c.callback.Some? ==>
        && c.request.id in pending && pending[c.request.id].callback == c.callback.value
        && (forall id :: id != c.request.id ==>
              (id in pending <==> id in old(pending)) && (id in pending ==> pending[id] == old(pending)[id]))
    {
      var token := nextToken;
      var timed := TimerApplies(c);
      nextToken := nextToken + 1;
      if timed {
        wrappers := wrappers[token := Wrapper(c.callback.value, Config.TimeoutOf(options), false)];
      }
      if !Writable(stream) {
        if c.callback.None? {
          effect := Threw(SocketClosed);
        } else {
          effect := Invoke(c.callback.value, token, timed, Failed(SocketClosed));
        }
        return;
      }
      written := written + [c.request];
      effect := Quiet;
      if c.callback.None? {
        return;
      }
      pending := pending[c.request.id := Handler(c.callback.value, token, timed, c.typeName)];
    }

    /** `_takeOrWait(method, type, key, count, done)` with `id` standing for the
        generated request id. */
    method TakeOrWait(m: Method, id: string, bucketType: string, key: string, count: Value, done: Done) returns (effect: Effect)
      requires m == TAKE || m == WAIT
      modifies this
      ensures var n := Dispatch(old(Snapshot()), Requests.TakeOrWait(m, id, bucketType, key, count, done));
        Snapshot() == n.state && effect == n.effect
    {
      effect := Request(Requests.TakeOrWait(m, id, bucketType, key, count, done));
    }

    method Take(id: string, bucketType: string, key: string, count: Value, done: Done) returns (effect: Effect)
      modifies this
      ensures var n := Dispatch(old(Snapshot()), Requests.TakeOrWait(TAKE, id, bucketType, key, count, done));
        Snapshot() == n.state && effect == n.effect
    {
      effect := TakeOrWait(TAKE, id, bucketType, key, count, done);
    }

    method Wait(id: string, bucketType: string, key: string, count: Value, done: Done) returns (effect: Effect)
      modifies this
      ensures var n := Dispatch(old(Snapshot()), Requests.TakeOrWait(WAIT, id, bucketType, key, count, done));
        Snapshot() == n.state && effect == n.effect
      ensures wrappers == old(wrappers)
    {
      effect := TakeOrWait(WAIT, id, bucketType, key, count, done);
    }

    /** `put`, also reachable as `reset`. */
    method Put(id: string, bucketType: string, key: string, count: Value, done: Done) returns (effect: Effect)
      modifies this
      ensures var n := Dispatch(old(Snapshot()), Requests.Put(id, bucketType, key, count, done));
        Snapshot() == n.state && effect == n.effect
    {
      effect := Request(Requests.Put(id, bucketType, key, count, done));
    }

    method Status(id: string, bucketType: string, key: string, done: Done) returns (effect: Effect)
      modifies this
      ensures var n := Dispatch(old(Snapshot()), Requests.Status(id, bucketType, key, done));
        Snapshot() == n.state && effect == n.effect
    {
      effect := Request(Requests.Status(id, bucketType, key, done));
    }

    method Ping(id: string, done: Done) returns (effect: Effect)
      modifies this
      ensures var n := Dispatch(old(Snapshot()), Requests.Ping(id, done));
        Snapshot() == n.state && effect == n.effect
    {
      effect := Request(Requests.Ping(id, done));
    }

    /** The `'data'` listener: look the response up by its request id; a handler
        found deletes its own entry, then calls back with the unwrapped response. */
    method OnData(resp: Response) returns (effect: Effect)
      modifies this
      ensures var n := Route(old(Snapshot()), resp); Snapshot() == n.state && effect == n.effect
      ensures resp.requestId !in old(pending) ==> effect == Quiet && Snapshot() == old(Snapshot())
      ensures resp.requestId in old(pending) ==> pending == old(pending) - {resp.requestId}
      ensures resp.requestId in old(pending) && !old(pending)[resp.requestId].timed ==>
        var h := old(pending)[resp.requestId];
        effect == Delivered(Delivery(h.callback, h.token, Unwrap(resp, h.typeName)))
      ensures resp.requestId in old(pending) && old(pending)[resp.requestId].timed ==>
        var h := old(pending)[resp.requestId];
        && (effect.Delivered? <==> h.token in old(wrappers) && !old(wrappers)[h.token].fired)
        && (effect.Delivered? ==>
              effect == Delivered(Delivery(old(wrappers)[h.token].callback, h.token, Unwrap(resp, h.typeName)))
              && wrappers[h.token].fired)
    {
      if resp.requestId !in pending {
        effect := Quiet;
        return;
      }
      var h := pending[resp.requestId];
      pending := pending - {resp.requestId};
      effect := Invoke(h.callback, h.token, h.timed, Unwrap(resp, h.typeName));
    }

    /** The timer of the wrapper named by `token` running out. */
    method OnTimeout(token: nat) returns (effect: Effect)
      modifies this
      ensures var n := Timeout(old(Snapshot()), token); Snapshot() == n.state && effect == n.effect
      ensures pending == old(pending)
    {
      effect := InvokeWrapper(token, Failed(RequestTimeout));
    }
  }

  /** A take answered with a take payload; a second answer with the same id
      is dropped. */
  method ScenarioAnswered(cb: Callback, payload: map<string, Value>) {
    var client := new LimitdClient(None);
    client.Attach();
    var e := client.Take("abc1234", "gold", "user1", Num(3), Given(cb));
    assert e == Quiet && client.written == [Request("abc1234", "gold", "user1", TAKE, Num(3), false)];
    e := client.OnData(Response("abc1234", Obj(payload), Null, Null, None));
    assert e == Delivered(Delivery(cb, 0, Succeeded(Obj(payload))));
    e := client.OnData(Response("abc1234", Obj(payload), Null, Null, None));
    assert e == Quiet;
  }

  /** A take for a bucket type the server does not know. */
  method ScenarioUnknownType(cb: Callback) {
    var client := new LimitdClient(None);
    client.Attach();
    var e := client.Take("bogus01", "bogus-type", "k", One, Given(cb));
    assert client.pending["bogus01"] == Handler(cb, 0, true, "bogus-type");
    e := client.OnData(Response("bogus01", Null, Null, Null, Some(UNKNOWN_BUCKET_TYPE)));
    assert e == Delivered(Delivery(cb, 0, Failed("bogus-type" + InvalidBucketSuffix)));
  }

  /** A take that times out: the entry stays until the late answer, which is
      swallowed by the wrapper. */
  method ScenarioTimeout(cb: Callback, payload: map<string, Value>) {
    var client := new LimitdClient(None);
    client.Attach();
    var e := client.Take("late001", "gold", "k", One, Given(cb));
    e := client.OnTimeout(0);
    assert e == Delivered(Delivery(cb, 0, Failed("request timeout")));
    assert "late001" in client.pending;
    e := client.OnData(Response("late001", Obj(payload), Null, Null, None));
    assert e == Quiet && "late001" !in client.pending;
  }

  /** Calls without a stream: with a callback it hears "The socket is closed.",
      without one the call throws; nothing is written either way. */
  method ScenarioNoStream(cb: Callback) {
    var client := new LimitdClient(None);
    var e := client.Status("st00001", "gold", "k", Given(cb));
    assert e == Delivered(Delivery(cb, 0, Failed("The socket is closed.")));
    e := client.Ping("pi00001", Omitted);
    assert e == Threw("The socket is closed.") && client.written == [];
  }
}
