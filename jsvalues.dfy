/**
 * The JavaScript values that cross the message boundary: parsed message data,
 * event payloads and call arguments. Only what the controller inspects is
 * modelled: truthiness, property reads (which throw on `undefined`/`null`)
 * and the string coercion used by template literals and property keys.
 */
module JsValues {
  import opened Wrappers

  datatype Value =
    | Undefined
    | Null
    | Bool(b: bool)
    | Num(n: int)
    | Str(s: string)
    | Arr(items: seq<Value>)
    | Obj(fields: map<string, Value>)

  /** JavaScript truthiness (`if (v)`, `v && …`, `v || …`). */
  predicate Truthy(v: Value) {
    match v
    case Undefined => false
    case Null => false
    case Bool(b) => b
    case Num(n) => n != 0
    case Str(s) => s != ""
    case Arr(_) => true
    case Obj(_) => true
  }

  /**
   * The property read `v.key`: `None` is the TypeError thrown when `v` is
   * `undefined` or `null`; a missing property reads as `undefined`. The keys
   * the controller reads (`event`, `data`, `method`, `value`, `name`,
   * `message`) are not built-in properties of strings, arrays or numbers.
   */
  function Get(v: Value, key: string): (r: Option<Value>)
    ensures r.None? <==> v.Undefined? || v.Null?
    ensures v.Obj? ==> r == Some(if key in v.fields then v.fields[key] else Undefined)
    ensures !v.Obj? && r.Some? ==> r.value == Undefined
  {
    match v
    case Undefined => None
    case Null => None
    case Obj(f) => Some(if key in f then f[key] else Undefined)
    case _ => Some(Undefined)
  }

  /** `v.key` where the caller has already checked that `v` is truthy. */
  function Field(v: Value, key: string): (r: Value)
    requires Truthy(v)
    ensures Get(v, key) == Some(r)
  {
    match v
    case Obj(f) => if key in f then f[key] else Undefined
    case _ => Undefined
  }

  function DigitChar(d: nat): (c: char)
    requires d < 10
    ensures '0' <= c <= '9'
  {
    "0123456789"[d]
  }

  /** Decimal notation of a natural number, as `String(n)` prints it. */
  function NatToString(n: nat): (r: string)
    ensures |r| > 0
    ensures forall i :: 0 <= i < |r| ==> '0' <= r[i] <= '9'
    decreases n
  {
    if n < 10 then [DigitChar(n)] else NatToString(n / 10) + [DigitChar(n % 10)]
  }

  function IntToString(n: int): (r: string)
    ensures |r| > 0
  {
    if n < 0 then "-" + NatToString(-n) else NatToString(n)
  }

  /**
   * `String(v)`, the coercion applied by template literals (`event:${name}`),
   * by property keys (`displayCallbacks[name]`) and by `new Error(message)`.
   * Arrays print as `join(',')`, where `undefined` and `null` print as "".
   */
  function ToStr(v: Value): string
    decreases v, 1
  {
    match v
    case Undefined => "undefined"
    case Null => "null"
    case Bool(b) => if b then "true" else "false"
    case Num(n) => IntToString(n)
    case Str(s) => s
    case Arr(items) => JoinItems(v, items)
    case Obj(_) => "[object Object]"
  }

  function JoinItems(whole: Value, items: seq<Value>): string
    requires forall i :: 0 <= i < |items| ==> items[i] < whole
    decreases whole, 0, |items|
  {
    if items == [] then ""
    else
      var first := if items[0].Undefined? || items[0].Null? then "" else ToStr(items[0]);
      if |items| == 1 then first else first + "," + JoinItems(whole, items[1..])
  }

  /** The message of `new Error(m)`: `undefined` gives "", anything else `String(m)`. */
  function ErrorMessage(m: Value): string {
    if m.Undefined? then "" else ToStr(m)
  }

  /**
   * A thrown or rejected error. `TypeError` is the runtime's own (a property
   * read on `undefined`/`null`, a call of something that is not a function,
   * or one the controller throws); `ErrorValue` is `new Error(message)` with
   * its `name` set; `HubstairsError` is the package's error class, built from
   * a message (`text`) and a name (`kind`).
   */
  datatype Failure =
    | TypeError(message: string)
    | ErrorValue(name: Value, message: string)
    | HubstairsError(text: Value, kind: Value)
}
