/**
 * JavaScript values as the vendor SDK and the HTTP layer hand them over:
 * untyped payloads whose fields may be missing, null or of any type.
 * Numbers are modelled as integers.
 */
module JsValue {
  import opened Wrappers
  import Text

  datatype Value =
    | Undefined
    | Null
    | Bool(b: bool)
    | Num(n: int)
    | Str(s: string)
    | Arr(elems: seq<Value>)
    | Obj(props: map<string, Value>)

  /** JavaScript truthiness: what `if (v)`, `!v` and `v || w` test. */
  predicate Truthy(v: Value) {
    match v
    case Undefined => false
    case Null => false
    case Bool(b) => b
    case Num(n) => n != 0
    case Str(s) => s != ""
    case Arr(_) => true
    case Obj(_) => true
  }

  /** `v === null || v === undefined`: the values whose property access throws a TypeError. */
  predicate IsNullish(v: Value) {
    v == Null || v == Undefined
  }

  /** `typeof v === 'object' && v !== null`. */
  predicate IsObject(v: Value) {
    v.Arr? || v.Obj?
  }

  /** `v || w`. */
  function Or(v: Value, w: Value): (r: Value)
    ensures Truthy(v) ==> r == v
    ensures !Truthy(v) ==> r == w
  {
    if Truthy(v) then v else w
  }

  /**
   * `v[key]` on a value that is not null or undefined (on those it throws); also
   * `v?.[key]`, which gives undefined for them. Own properties of objects only.
   */
  function Get(v: Value, key: string): (r: Value)
    ensures v.Obj? && key in v.props ==> r == v.props[key]
    ensures !(v.Obj? && key in v.props) ==> r == Undefined
  {
    match v
    case Obj(m) => if key in m then m[key] else Undefined
    case _ => Undefined
  }

  /** `key in v` on an object (on anything else the operator throws). */
  predicate Has(v: Value, key: string)
    requires IsObject(v)
  {
    v.Obj? && key in v.props
  }

  /**
   * `Number(s)` for a string, rounded down to an integer: blank text is 0, a trimmed
   * decimal numeral is read by Text.DecimalFloor, and None stands for NaN.
   */
  function StringToNumber(s: string): Option<int> {
    var t := Text.Trim(s);
    if t == [] then Some(0) else Text.DecimalFloor(t)
  }

  /** `Number(String(n))` is `n`: an integer's numeral converts back to it. */
  lemma NumeralRoundTrip(n: int)
    ensures StringToNumber(Text.IntToString(n)) == Some(n)
  {
    Text.IntToStringReadBack(n);
  }

  /** `String(v)`: the property key under which `table[v]` looks `v` up. */
  function ToJsString(v: Value): string
    decreases v, 1
  {
    match v
    case Undefined => "undefined"
    case Null => "null"
    case Bool(b) => if b then "true" else "false"
    case Num(n) => Text.IntToString(n)
    case Str(s) => s
    case Arr(es) => JoinElements(v, es)
    case Obj(_) => "[object Object]"
  }

  /** `Array.prototype.join(',')` of (a suffix of) the elements of `whole`; null and undefined print empty. */
  function JoinElements(whole: Value, es: seq<Value>): string
    requires forall e :: e in es ==> e < whole
    decreases whole, 0, |es|
  {
    if es == [] then ""
    else
      assert es[0] in es;
      var first := if IsNullish(es[0]) then "" else ToJsString(es[0]);
      assert forall e :: e in es[1..] ==> e in es;
      if |es| == 1 then first else first + "," + JoinElements(whole, es[1..])
  }

  /** `[x].join(',')` is `String(x)`, or empty for null and undefined; `[].join(',')` is empty. */
  lemma JoinSingleton(x: Value)
    ensures ToJsString(Arr([])) == ""
    ensures ToJsString(Arr([x])) == if IsNullish(x) then "" else ToJsString(x)
  {
    var es := [x];
    assert es[0] == x;
    assert JoinElements(Arr(es), es) == (if IsNullish(x) then "" else ToJsString(x));
  }
}
