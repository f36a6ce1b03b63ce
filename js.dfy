/** The JavaScript values the message helpers inspect, and the few operations of the
    language they rely on: truthiness, `||`, property reads and string conversion. */
module Js {

  datatype Option<+T> = None | Some(value: T)

  /** What a `throw` inside `post` amounts to. `Unmodelled` marks an input
      shape whose outcome this model does not compute (see the README). */
  datatype JsError = TypeError | Unmodelled

  /** Failure-compatible result, so that `:-` propagates a thrown error. */
  datatype Result<+T> = Ok(value: T) | Err(error: JsError) {
    predicate IsFailure() { Err? }
    function PropagateFailure<U>(): Result<U> requires Err? { Err(error) }
    function Extract(): T requires Ok? { value }
  }

  /** A JavaScript value. Numbers are integers; an object is the map of its own
      enumerable properties. */
  datatype Value =
    | Undefined
    | Null
    | Bool(b: bool)
    | Num(n: int)
    | Str(s: string)
    | Arr(items: seq<Value>)
    | Obj(props: map<string, Value>)

  /** The value a plain `{ }` with these properties denotes. */
  const NoPing: Value := Obj(map["repliedUser" := Bool(false)])

  /** JavaScript truthiness, as used by `if (v)`, `!v` and `v || w`. */
  predicate Truthy(v: Value) {
    match v
    case Undefined => false
    case Null => false
    case Bool(b) => b
    case Num(n) => n != 0
    case Str(s) => s != ""
    case Arr(_) => true
    case Obj(_) => true
  }

  /** `v || w` */
  function Or(v: Value, w: Value): Value {
    if Truthy(v) then v else w
  }

  /** `v.k` on a value that is neither `undefined` nor `null`, for property names that
      are not array indices or `length` (the only ones the helpers read). */
  function Prop(v: Value, k: string): Value {
    if v.Obj? && k in v.props then v.props[k] else Undefined
  }

  /** Reading `m[k]` of a plain object: `undefined` when the key is absent. */
  function Get(m: map<string, Value>, k: string): Value {
    if k in m then m[k] else Undefined
  }

  function Digit(d: nat): char
    requires d < 10
  {
    "0123456789"[d]
  }

  /** Decimal notation of a natural number, as `${n}` prints it. */
  function NatStr(n: nat): (r: string)
    ensures |r| >= 1
    ensures forall i :: 0 <= i < |r| ==> '0' <= r[i] <= '9'
    decreases n
  {
    if n < 10 then [Digit(n)] else NatStr(n / 10) + [Digit(n % 10)]
  }

  /** The number a string of decimal digits denotes. */
  function DigitsValue(s: string): nat
    decreases |s|
  {
    if |s| == 0 then 0
    else
      var d := s[|s| - 1] as int - '0' as int;
      DigitsValue(s[..|s| - 1]) * 10 + (if 0 <= d < 10 then d else 0)
  }

  /** Reading back what NatStr prints gives the number printed. */
  lemma {:induction false} NatStrRoundTrip(n: nat)
    ensures DigitsValue(NatStr(n)) == n
    decreases n
  {
    if n >= 10 {
      NatStrRoundTrip(n / 10);
      var s := NatStr(n);
      assert s[..|s| - 1] == NatStr(n / 10);
    }
  }

  /** Distinct numbers print differently. */
  lemma NatStrInjective(m: nat, n: nat)
    ensures NatStr(m) == NatStr(n) ==> m == n
  {
    NatStrRoundTrip(m);
    NatStrRoundTrip(n);
  }

  /** `String(v)`, which a template literal `${v}` applies. */
  function Stringify(v: Value): string
    decreases v, 1
  {
    match v
    case Undefined => "undefined"
    case Null => "null"
    case Bool(b) => if b then "true" else "false"
    case Num(n) => if n < 0 then "-" + NatStr(-n) else NatStr(n)
    case Str(s) => s
    case Arr(items) => Join(items)
    case Obj(_) => "[object Object]"
  }

  /** `items.join(",")`: `undefined` and `null` elements print as nothing. */
  function Join(items: seq<Value>): string
    decreases items, 0
  {
    if |items| == 0 then ""
    else
      var head := if items[0].Undefined? || items[0].Null? then "" else Stringify(items[0]);
      if |items| == 1 then head else head + "," + Join(items[1..])
  }
}
