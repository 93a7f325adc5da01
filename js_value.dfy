/** The JavaScript values the plugin's options object is made of, and the few
    language rules the plugin relies on: property reads, truthiness,
    `instanceof Object` and conversion to a string. */
module JsValue {

  datatype Option<+T> = None | Some(value: T)

  /** A JSON-like JavaScript value. A number is held as the text `String(n)`
      gives for it ("10", "55.56265", "NaN"): the plugin never computes with the
      numbers it reads from its options, it only tests them and passes them on. */
  datatype Value =
    | Null
    | Bool(b: bool)
    | Num(text: string)
    | Str(s: string)
    | Arr(items: seq<Value>)
    | Obj(fields: map<string, Value>)

  /** A plain object: its own enumerable properties. */
  type Object = map<string, Value>

  /** `o.key` on a plain object, for a key that names an own property or no
      property at all; None stands for `undefined`. Keys naming members of
      `Object.prototype` ("constructor", "__proto__", ...) are not modelled. */
  function Get(o: Object, key: string): Option<Value> {
    if key in o then Some(o[key]) else None
  }

  /** `v.key` on any non-null value: only plain objects carry named properties
      here (a string's or an array's named properties are all `undefined`). */
  function Prop(v: Value, key: string): Option<Value> {
    if v.Obj? then Get(v.fields, key) else None
  }

  /** `v.hasOwnProperty(key)` for a non-null value and a key that is neither an
      array index nor "length". */
  predicate HasOwn(v: Value, key: string) {
    v.Obj? && key in v.fields
  }

  /** JavaScript truthiness; `undefined` (None), null, false, 0, NaN and the
      empty string are falsy. */
  predicate Truthy(v: Option<Value>) {
    match v
    case None => false
    case Some(Null) => false
    case Some(Bool(b)) => b
    case Some(Num(t)) => t != "0" && t != "NaN"
    case Some(Str(s)) => s != ""
    case Some(Arr(_)) => true
    case Some(Obj(_)) => true
  }

  /** `v instanceof Object`: true of arrays and objects, false of null and of
      primitive values. */
  predicate IsObject(v: Value) {
    v.Arr? || v.Obj?
  }

  /** `'' + v`: the string a concatenation makes of a value. */
  function ToJsString(v: Option<Value>): string {
    match v
    case None => "undefined"
    case Some(x) => ValueText(x)
  }

  function ValueText(v: Value): string {
    match v
    case Null => "null"
    case Bool(b) => if b then "true" else "false"
    case Num(t) => t
    case Str(s) => s
    case Obj(_) => "[object Object]"
    case Arr(items) =>
      // Array.prototype.join(","): null elements become the empty string
      Join(seq(|items|, i requires 0 <= i < |items| =>
        if items[i].Null? then "" else ValueText(items[i])))
  }

  /** The parts separated by commas. */
  function Join(parts: seq<string>): string {
    if |parts| == 0 then ""
    else if |parts| == 1 then parts[0]
    else parts[0] + "," + Join(parts[1..])
  }
}
