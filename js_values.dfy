/** JavaScript values as the front end sees the decoded JSON of the back
    end, with the truthiness, `||` and property-read rules the front-end
    normaliser relies on. */
module JsValues {
  import opened Wrappers

  datatype JsValue =
    | Undefined
    | Null
    | Bool(b: bool)
    | Num(n: real)
    | Str(s: string)
    | Arr(items: seq<JsValue>)
    | Obj(fields: map<string, JsValue>)

  /** JavaScript truthiness: `undefined`, `null`, `false`, `0` and `""` are
      falsy; every array and object is truthy. */
  predicate Truthy(v: JsValue) {
    match v
    case Undefined => false
    case Null => false
    case Bool(b) => b
    case Num(n) => n != 0.0
    case Str(s) => s != ""
    case Arr(_) => true
    case Obj(_) => true
  }

  /** `v[key]`: the stored value, or `undefined` for a missing key or a
      value that is not an object. */
  function Prop(v: JsValue, key: string): JsValue {
    if v.Obj? && key in v.fields then v.fields[key] else Undefined
  }

  /** `a || b`: the first operand when it is truthy, else the second. */
  function Or(a: JsValue, b: JsValue): (r: JsValue)
    ensures Truthy(a) ==> r == a
    ensures !Truthy(a) ==> r == b
    ensures Truthy(r) <==> Truthy(a) || Truthy(b)
  {
    if Truthy(a) then a else b
  }

  /** `v !== undefined ? v : d`. */
  function Defined(v: JsValue, d: JsValue): (r: JsValue)
    ensures v != Undefined ==> r == v
    ensures v == Undefined ==> r == d
  {
    if v != Undefined then v else d
  }

  /** The elements of an array value; any other value is read as empty. */
  function Items(v: JsValue): seq<JsValue> {
    if v.Arr? then v.items else []
  }

  /** The index of the first element satisfying `p` (`Array.prototype.find`). */
  function FindIndex(s: seq<JsValue>, p: JsValue -> bool): (k: Option<nat>)
    ensures k.Some? ==> k.value < |s| && p(s[k.value]) && forall j :: 0 <= j < k.value ==> !p(s[j])
    ensures k.None? ==> forall j :: 0 <= j < |s| ==> !p(s[j])
  {
    if s == [] then None
    else if p(s[0]) then Some(0)
    else
      match FindIndex(s[1..], p)
      case None => None
      case Some(k) => Some(k + 1)
  }

  /** The elements satisfying `p`, in order (`Array.prototype.filter`). */
  function Filter(s: seq<JsValue>, p: JsValue -> bool): (r: seq<JsValue>)
    ensures |r| <= |s|
    ensures forall x :: x in r <==> x in s && p(x)
  {
    if s == [] then []
    else (if p(s[0]) then [s[0]] else []) + Filter(s[1..], p)
  }
}
