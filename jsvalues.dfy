/** The JavaScript values that cross the application's boundaries (JSON bodies, search hits,
    component props), with the language rules the code relies on: truthiness, `a || b`,
    property reads, and the text a template literal inserts. Numbers are integers here. */
module JsValues {
  import opened Text

  datatype JsVal =
    | Undefined
    | Null
    | Bool(b: bool)
    | Num(n: int)
    | Str(s: string)
    | Arr(elems: seq<JsVal>)
    | Obj(props: map<string, JsVal>)

  /** ToBoolean: `undefined`, `null`, `false`, `0` and `''` are falsy, everything else truthy. */
  predicate Truthy(v: JsVal) {
    match v
    case Undefined => false
    case Null => false
    case Bool(b) => b
    case Num(n) => n != 0
    case Str(s) => s != ""
    case Arr(_) => true
    case Obj(_) => true
  }

  /** `a || b`. */
  function Or(a: JsVal, b: JsVal): JsVal {
    if Truthy(a) then a else b
  }

  /** Reading a property of `null` or `undefined` raises a TypeError. */
  predicate ReadThrows(v: JsVal) {
    v.Undefined? || v.Null?
  }

  /** `v.key` on a value that does not throw: an own property of an object, otherwise `undefined`. */
  function Prop(v: JsVal, key: string): JsVal {
    if v.Obj? && key in v.props then v.props[key] else Undefined
  }

  /** `typeof v.key === 'string' && v.key.startsWith(prefix)`, read as one test. */
  predicate StringPropStartsWith(v: JsVal, key: string, prefix: string) {
    Prop(v, key).Str? && prefix <= Prop(v, key).s
  }

  /** The text `${v}` inserts: String(v). Array elements that are null or undefined print as empty. */
  function ToText(v: JsVal): string
    decreases v
  {
    match v
    case Undefined => "undefined"
    case Null => "null"
    case Bool(b) => if b then "true" else "false"
    case Num(n) => IntToString(n)
    case Str(s) => s
    case Arr(elems) =>
      Join(seq(|elems|, i requires 0 <= i < |elems| =>
                          if ReadThrows(elems[i]) then "" else ToText(elems[i])), ",")
    case Obj(_) => "[object Object]"
  }
}
