/**
 * Schema-loose JSON objects as the webhook and the provider's API hand them over,
 * with JavaScript's truthiness, the `a || b || c` alias chains the code reads them
 * with, and `String(v)`.
 */
module Json {
  import opened Strings

  /**
   * A field value. Numbers are integers; `Obj` stands for any non-array object,
   * whose own fields the code never reads, and `Arr` for an array.
   */
  datatype Value = Undefined | Null | Bool(b: bool) | Num(n: int) | Str(s: string) | Obj | Arr(items: seq<Value>)

  type Object = map<string, Value>

  /** `o[key]`; a missing field reads as `undefined`. */
  function Get(o: Object, key: string): Value {
    if key in o then o[key] else Undefined
  }

  predicate Truthy(v: Value) {
    match v
    case Undefined => false
    case Null => false
    case Bool(b) => b
    case Num(n) => n != 0
    case Str(s) => s != []
    case Obj => true
    case Arr(_) => true
  }

  /**
   * `o[k0] || o[k1] || ... || o[kn]`: the first truthy field, or the last one read
   * when none is truthy.
   */
  function Chain(o: Object, keys: seq<string>): Value
    decreases |keys|
  {
    if keys == [] then Undefined
    else if |keys| == 1 || Truthy(Get(o, keys[0])) then Get(o, keys[0])
    else Chain(o, keys[1..])
  }

  /** `v || d` */
  function OrElse(v: Value, d: Value): Value {
    if Truthy(v) then v else d
  }

  /** `String(v)`, also what a template literal `${v}` and `v.toString()` produce. */
  function ToText(v: Value): string
    decreases v, 1
  {
    match v
    case Undefined => "undefined"
    case Null => "null"
    case Bool(b) => if b then "true" else "false"
    case Num(n) => IntToString(n)
    case Str(s) => s
    case Obj => "[object Object]"
    case Arr(items) => Joined(items)
  }

  /** `items.join(',')`, where `undefined` and `null` elements print as nothing. */
  function Joined(items: seq<Value>): string
    decreases items, 0
  {
    if items == [] then ""
    else
      var last := items[|items| - 1];
      (if |items| == 1 then "" else Joined(items[..|items| - 1]) + ",")
      + (if last.Undefined? || last.Null? then "" else ToText(last))
  }

  /**
   * An alias chain is truthy exactly when one of its fields is, and then it is the
   * value of the first truthy field in the listed order.
   */
  lemma {:induction false} ChainFirstTruthy(o: Object, keys: seq<string>)
    decreases |keys|
    ensures Truthy(Chain(o, keys)) <==> exists i | 0 <= i < |keys| :: Truthy(Get(o, keys[i]))
    ensures Truthy(Chain(o, keys)) ==>
      exists i | 0 <= i < |keys| :: Chain(o, keys) == Get(o, keys[i])
        && forall j | 0 <= j < i :: !Truthy(Get(o, keys[j]))
  {
    if keys == [] {
    } else if |keys| == 1 || Truthy(Get(o, keys[0])) {
      if !Truthy(Get(o, keys[0])) {
        assert |keys| == 1;
      }
    } else {
      ChainFirstTruthy(o, keys[1..]);
      assert forall i | 0 <= i < |keys[1..]| :: keys[1..][i] == keys[i + 1];
      if Truthy(Chain(o, keys)) {
        var i :| 0 <= i < |keys[1..]| && Chain(o, keys[1..]) == Get(o, keys[1..][i])
          && forall j | 0 <= j < i :: !Truthy(Get(o, keys[1..][j]));
        assert Chain(o, keys) == Get(o, keys[i + 1]);
        assert forall j | 0 <= j < i + 1 :: !Truthy(Get(o, keys[j])) by {
          forall j | 0 <= j < i + 1 ensures !Truthy(Get(o, keys[j])) {
            if j > 0 { assert keys[j] == keys[1..][j - 1]; }
          }
        }
      }
    }
  }
}
