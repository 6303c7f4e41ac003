/** Client options: the built-in defaults, the `_.extend({}, defaults, options)`
    merge done by the constructor, and the fields `connect` and `_request` read
    from the merged options. */
module Config {
  import opened Js

  const DefaultPort: int := 9231
  const DefaultHost: string := "localhost"
  const DefaultTimeout: int := 1000

  const Defaults: map<string, Value> :=
    map["port" := Num(DefaultPort), "host" := Str(DefaultHost), "timeout" := Num(DefaultTimeout)]

  /** The address handed to the reconnect loop. */
  datatype Endpoint = Endpoint(port: Value, host: Value)

  /** `options || {}`: a falsy options argument counts as no options at all. */
  function OrEmpty(options: Option<map<string, Value>>): (m: map<string, Value>)
    ensures options.None? ==> m == map[]
    ensures options.Some? ==> m == options.value
  {
    match options
    case None => map[]
    case Some(o) => o
  }

  /** `_.extend({}, defaults, options)`: every own property of `options` wins,
      even one whose value is `undefined`; the defaults fill in the rest. */
  function Merge(options: map<string, Value>): (m: map<string, Value>)
    ensures m.Keys == Defaults.Keys + options.Keys
    ensures forall k :: k in options ==> m[k] == options[k]
    ensures forall k :: k in Defaults && k !in options ==> m[k] == Defaults[k]
  {
    Defaults + options
  }

  /** `options.port` and `options.address || options.hostname || options.host`:
      the host is the first truthy one of the three, and `host` when none is. */
  function EndpointOf(options: map<string, Value>): (e: Endpoint)
    ensures e.port == Get(options, "port")
    ensures Truthy(Get(options, "address")) ==> e.host == options["address"]
    ensures !Truthy(Get(options, "address")) && Truthy(Get(options, "hostname")) ==> e.host == options["hostname"]
    ensures !Truthy(Get(options, "address")) && !Truthy(Get(options, "hostname")) ==> e.host == Get(options, "host")
  {
    FirstTruthyOfThree(Get(options, "address"), Get(options, "hostname"), Get(options, "host"));
    Endpoint(Get(options, "port"),
             OrChain([Get(options, "address"), Get(options, "hostname"), Get(options, "host")]))
  }

  /** `options.timeout`, the delay given to each request's timeout wrapper. */
  function TimeoutOf(options: map<string, Value>): Value {
    Get(options, "timeout")
  }

  /** A field that the caller does not mention keeps its default. */
  lemma DefaultsFillIn(options: map<string, Value>)
    ensures "port" !in options ==> EndpointOf(Merge(options)).port == Num(9231)
    ensures "timeout" !in options ==> TimeoutOf(Merge(options)) == Num(1000)
    ensures "address" !in options && "hostname" !in options && "host" !in options
            ==> EndpointOf(Merge(options)).host == Str("localhost")
  {
  }

  /** A field that the caller mentions replaces the default, whatever its value
      (an explicit `undefined` port or timeout wipes the default out). */
  lemma OptionsOverride(options: map<string, Value>)
    ensures "port" in options ==> EndpointOf(Merge(options)).port == options["port"]
    ensures "timeout" in options ==> TimeoutOf(Merge(options)) == options["timeout"]
  {
  }
}
