/**
 * JSON values as the handlers see them after `response.json()`, and the three JavaScript
 * operations the handlers apply to them: truthiness (`x || d`), optional property access
 * (`x?.f`) and plain property access (`x.f`, which throws on null and undefined), plus the
 * string conversion a template literal performs.
 */
module JsValues {
  import opened Prelude
  import JsNumbers

  /** A parsed JSON value, plus `undefined`. Numbers are integers in this model. */
  datatype JsValue =
    | Undefined
    | Null
    | Bool(b: bool)
    | Num(n: int)
    | Str(s: string)
    | Arr(items: seq<JsValue>)
    | Obj(props: map<string, JsValue>)

  /** JavaScript truthiness: undefined, null, false, 0 and "" are falsy; everything else is truthy. */
  predicate Truthy(v: JsValue) {
    match v
    case Undefined => false
    case Null => false
    case Bool(b) => b
    case Num(n) => n != 0
    case Str(s) => s != ""
    case Arr(_) => true
    case Obj(_) => true
  }

  /** `a || b`: the left operand when it is truthy, the right one otherwise. */
  function Or(a: JsValue, b: JsValue): (r: JsValue)
    ensures Truthy(a) ==> r == a
    ensures !Truthy(a) ==> r == b
  {
    if Truthy(a) then a else b
  }

  /**
   * `v?.key` for the data property names the handlers use: the property of an object, and
   * `undefined` for anything else (null, undefined, primitives and arrays carry no such property).
   */
  function OptionalGet(v: JsValue, key: string): JsValue {
    match v
    case Obj(props) => if key in props then props[key] else Undefined
    case _ => Undefined
  }

  /** `v.key`: like `v?.key`, except that it throws a TypeError (`None`) on null and undefined. */
  function Get(v: JsValue, key: string): (r: Option<JsValue>)
    ensures r.None? <==> v == Null || v == Undefined
    ensures r.Some? ==> r.value == OptionalGet(v, key)
  {
    if v == Null || v == Undefined then None else Some(OptionalGet(v, key))
  }

  /**
   * The text a template literal `${v}` produces: numbers in decimal, arrays as their
   * elements joined by commas (null and undefined elements as empty text), plain objects
   * as "[object Object]".
   */
  function ToText(v: JsValue): string
    decreases v, 1, 0
  {
    match v
    case Undefined => "undefined"
    case Null => "null"
    case Bool(b) => if b then "true" else "false"
    case Num(n) => JsNumbers.IntToString(n)
    case Str(s) => s
    case Arr(items) => ItemsText(v, 0)
    case Obj(_) => "[object Object]"
  }

  /** The elements of the array `v` from index `i` on, converted as `Array.prototype.join(",")` does. */
  function ItemsText(v: JsValue, i: nat): string
    requires v.Arr? && i <= |v.items|
    decreases v, 0, |v.items| - i
  {
    if i == |v.items| then ""
    else
      var item := v.items[i];
      var text := if item == Null || item == Undefined then "" else ToText(item);
      if i + 1 == |v.items| then text else text + "," + ItemsText(v, i + 1)
  }

  /** A string goes into a template literal verbatim, and a missing value shows as "undefined". */
  lemma ToTextOfString(s: string)
    ensures ToText(Str(s)) == s
    ensures ToText(Undefined) == "undefined"
  {
  }
}
