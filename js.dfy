/** JavaScript values, as far as the modelled code inspects them.

    Socket.IO messages, React state and Mongoose fields are plain JavaScript
    values. The code under model only ever tests them for truthiness, compares
    them, copies them between objects and interpolates them into strings, so a
    small sum type is enough. A plain object is a reference: `Ref(id)` carries
    an opaque identity and is always truthy. Arrays are not values of this
    type. Objects decoded from different messages are distinct in JavaScript,
    so two such objects never share an id. */
module Js {

  datatype Option<+T> = None | Some(value: T)

  datatype JsValue =
    | Undefined
    | Null
    | Bool(b: bool)
    | Num(n: int)
    | Str(s: string)
    | Ref(id: nat)

  /** JavaScript truthiness: `false`, `0`, `""`, `null` and `undefined` are falsy. */
  predicate Truthy(v: JsValue)
  {
    match v
    case Bool(b) => b
    case Num(n) => n != 0
    case Str(s) => s != ""
    case Ref(_) => true
    case _ => false
  }

  /** The `a || b` operator: the left operand when it is truthy, else the right one. */
  function Or(a: JsValue, b: JsValue): (r: JsValue)
    ensures Truthy(a) ==> r == a
    ensures !Truthy(a) ==> r == b
    ensures Truthy(r) <==> Truthy(a) || Truthy(b)
  {
    if Truthy(a) then a else b
  }

  /** A plain object: property names to values. A missing property reads as `undefined`. */
  type Message = map<string, JsValue>

  function Field(m: Message, key: string): JsValue
  {
    if key in m then m[key] else Undefined
  }

  function Digit(d: nat): char
    requires d < 10
  {
    "0123456789"[d]
  }

  function Decimal(n: nat): string
    decreases n
  {
    if n < 10 then [Digit(n)] else Decimal(n / 10) + [Digit(n % 10)]
  }

  /** How a template literal `${v}` renders a value. A `Ref` stands for a plain object. */
  function Display(v: JsValue): string
  {
    match v
    case Undefined => "undefined"
    case Null => "null"
    case Bool(b) => if b then "true" else "false"
    case Num(n) => if n < 0 then "-" + Decimal(-n) else Decimal(n)
    case Str(s) => s
    case Ref(_) => "[object Object]"
  }
}
