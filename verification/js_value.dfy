/**
 * The JavaScript values that cross the message port, reduced to what the
 * protocol inspects: truthiness, `String(x)`, a couple of properties, the
 * array/observable/transferable tests.
 */
module JsValue {

  /** The three classes `getTransferList` recognises as transferable. */
  datatype ResourceKind = ArrayBuffer | MessagePort | ImageBitmap

  datatype Value =
    | Undefined
    | Null
    | Bool(b: bool)
    | Num(n: int)                              // integral numbers only
    | Str(s: string)
    | Arr(items: seq<Value>)
    | Obj(props: map<string, Value>)           // a plain object
    | ErrorObj(message: string, stack: Value)  // an `Error` instance
    | Resource(kind: ResourceKind, rid: nat)   // an ArrayBuffer, MessagePort or ImageBitmap
    | Stream(sid: int)                         // an rxjs Observable (opaque handle)

  /** JavaScript truthiness. */
  predicate Truthy(v: Value) {
    match v
    case Undefined => false
    case Null => false
    case Bool(b) => b
    case Num(n) => n != 0
    case Str(s) => s != ""
    case _ => true
  }

  /** `instanceof ArrayBuffer || instanceof MessagePort || instanceof ImageBitmap`. */
  predicate IsTransferable(v: Value) {
    v.Resource?
  }

  /** `instanceof MessagePort`. */
  predicate IsMessagePort(v: Value) {
    v.Resource? && v.kind == MessagePort
  }

  /** `obj[name]` on a value that is neither null nor undefined. */
  function Prop(v: Value, name: string): Value {
    match v
    case Obj(p) => if name in p then p[name] else Undefined
    case ErrorObj(m, s) =>
      if name == "message" then Str(m) else if name == "stack" then s else Undefined
    case _ => Undefined
  }

  /** The decimal digits of a natural number, most significant first. */
  function NatToDecimal(n: nat): (r: string)
    ensures |r| > 0
    ensures forall i :: 0 <= i < |r| ==> '0' <= r[i] <= '9'
  {
    var d := [('0' as int + n % 10) as char];
    if n < 10 then d else NatToDecimal(n / 10) + d
  }

  function IntToDecimal(n: int): string {
    if n < 0 then "-" + NatToDecimal(-n) else NatToDecimal(n)
  }

  /** `String(v)`: array elements that are null or undefined print as empty strings. */
  function ToJsString(v: Value): string
    decreases v
  {
    match v
    case Undefined => "undefined"
    case Null => "null"
    case Bool(b) => if b then "true" else "false"
    case Num(n) => IntToDecimal(n)
    case Str(s) => s
    case Arr(items) => JoinElements(items, 0, v)
    case Obj(_) => "[object Object]"
    case ErrorObj(m, _) => if m == "" then "Error" else "Error: " + m
    case Resource(k, _) =>
      (match k
       case ArrayBuffer => "[object ArrayBuffer]"
       case MessagePort => "[object MessagePort]"
       case ImageBitmap => "[object ImageBitmap]")
    case Stream(_) => "[object Object]"
  }

  /** `items.slice(from).join(",")` as `Array.prototype.toString` renders it. */
  function JoinElements(items: seq<Value>, from: nat, whole: Value): string
    requires whole == Arr(items)
    decreases whole, |items| - from
  {
    if from >= |items| then ""
    else
      var e := items[from];
      var s := if e.Undefined? || e.Null? then "" else ToJsString(e);
      if from + 1 == |items| then s else s + "," + JoinElements(items, from + 1, whole)
  }
}
