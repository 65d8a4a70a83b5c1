/** Dynamic values as they travel between the configuration layer, the
    provider and the API client (Go's `interface{}`), and the usual
    Option/Result wrappers. */
module Values {

  datatype Option<+T> = None | Some(value: T) {
    /** The value, or the Go zero value the caller supplies when unset. */
    function GetOr(default: T): T {
      if Some? then value else default
    }
  }

  datatype Result<+T, +E> = Success(value: T) | Failure(error: E) {
    predicate IsFailure() {
      Failure?
    }

    function PropagateFailure<U>(): Result<U, E>
      requires Failure?
    {
      Failure(error)
    }

    function Extract(): T
      requires Success?
    {
      value
    }
  }

  /** A Go `interface{}`: `nil`, a string, an `int`, a `bool`, a
      `json.Number` holding an integer, a `[]interface{}` or a
      `map[string]interface{}`. */
  datatype Value =
    | VNil
    | VStr(s: string)
    | VInt(i: int)
    | VBool(b: bool)
    | VNumber(n: int)
    | VList(items: seq<Value>)
    | VMap(entries: map<string, Value>)

  /** Every element would pass the `.(string)` type assertion. */
  predicate AllStrings(vs: seq<Value>) {
    forall k :: 0 <= k < |vs| ==> vs[k].VStr?
  }

  /** A `[]string` viewed as a `[]interface{}`. */
  function Strs(xs: seq<string>): (vs: seq<Value>)
    ensures |vs| == |xs|
    ensures forall k :: 0 <= k < |xs| ==> vs[k] == VStr(xs[k])
  {
    seq(|xs|, k requires 0 <= k < |xs| => VStr(xs[k]))
  }

  /** The strings inside a `[]interface{}` whose elements are all strings. */
  function Unwrap(vs: seq<Value>): (xs: seq<string>)
    requires AllStrings(vs)
    ensures Strs(xs) == vs
  {
    seq(|vs|, k requires 0 <= k < |vs| => vs[k].s)
  }

  lemma StrsInjective(xs: seq<string>, ys: seq<string>)
    requires Strs(xs) == Strs(ys)
    ensures xs == ys
  {
    assert |xs| == |ys|;
    forall k | 0 <= k < |xs| ensures xs[k] == ys[k] {
      assert Strs(xs)[k] == Strs(ys)[k];
    }
  }

  lemma UnwrapStrs(xs: seq<string>)
    ensures AllStrings(Strs(xs)) && Unwrap(Strs(xs)) == xs
  {
  }

  /** Go's `m[key]` on a `map[string]interface{}`: `nil` when absent. */
  function Lookup(m: map<string, Value>, key: string): Value {
    if key in m then m[key] else VNil
  }

  /** A `map[string]string` viewed as a `map[string]interface{}`. */
  function StringMapValue(m: map<string, string>): (v: Value)
    ensures v.VMap? && v.entries.Keys == m.Keys
    ensures forall k :: k in m ==> v.entries[k] == VStr(m[k])
  {
    VMap(map k | k in m :: VStr(m[k]))
  }
}
