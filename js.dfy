/** JavaScript values as the client sees them in argument positions, option
    objects and decoded messages, with the truthiness rules its `if` tests and
    `||` chains rely on. */
module Js {

  datatype Option<+T> = None | Some(value: T)

  /** Identity of a caller-supplied callback; what the function does is foreign. */
  datatype Callback = Callback(id: nat)

  /** A JavaScript value. Numbers are integers here (no NaN, no fractions). */
  datatype Value =
    | Undefined
    | Null
    | Bool(b: bool)
    | Num(n: int)
    | Str(text: string)
    | Fn(f: Callback)
    | Obj(fields: map<string, Value>)

  /** JavaScript truthiness: `undefined`, `null`, `false`, `0` and `''` are falsy. */
  predicate Truthy(v: Value) {
    match v
    case Undefined => false
    case Null => false
    case Bool(b) => b
    case Num(n) => n != 0
    case Str(t) => t != ""
    case Fn(_) => true
    case Obj(_) => true
  }

  /** `v == null` in JavaScript: `undefined` or `null`. */
  predicate Nullish(v: Value) {
    v == Undefined || v == Null
  }

  /** Property read on a plain object: a missing property reads as `undefined`. */
  function Get(m: map<string, Value>, k: string): (v: Value)
    ensures k !in m ==> v == Undefined
    ensures k in m ==> v == m[k]
  {
    if k in m then m[k] else Undefined
  }

  /** `xs[0] || xs[1] || ... || xs[n-1]`: the first truthy operand, or the last
      operand when none is truthy. */
  function OrChain(xs: seq<Value>): (r: Value)
    requires |xs| > 0
    ensures Truthy(r) <==> exists i :: 0 <= i < |xs| && Truthy(xs[i])
    ensures Truthy(r) ==> exists i :: 0 <= i < |xs| && xs[i] == r && forall j :: 0 <= j < i ==> !Truthy(xs[j])
    ensures !Truthy(r) ==> r == xs[|xs| - 1]
  {
    if |xs| == 1 || Truthy(xs[0]) then xs[0]
    else
      var r := OrChain(xs[1..]);
      assert forall i :: 1 <= i < |xs| ==> xs[i] == xs[1..][i - 1];
      r
  }

  /** The three-operand chain `a || b || c`: `a` when it is truthy, else `b`
      when it is truthy, else `c`. */
  lemma {:induction false} FirstTruthyOfThree(a: Value, b: Value, c: Value)
    ensures var h := OrChain([a, b, c]);
      && (Truthy(a) ==> h == a)
      && (!Truthy(a) && Truthy(b) ==> h == b)
      && (!Truthy(a) && !Truthy(b) ==> h == c)
  {
    var xs := [a, b, c];
    var h := OrChain(xs);
    assert Truthy(xs[0]) || Truthy(xs[1]) ==> Truthy(h);
    if Truthy(h) {
      var i :| 0 <= i < |xs| && xs[i] == h && forall j :: 0 <= j < i ==> !Truthy(xs[j]);
      assert Truthy(xs[i]);
      if Truthy(xs[0]) {
        assert i == 0;
      } else if Truthy(xs[1]) {
        assert i == 1;
      }
    }
  }
}
