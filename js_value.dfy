/**
 * The dynamically typed values a request body can carry once the JSON
 * body parser has run, with the few JavaScript operations the server
 * applies to them: truthiness, `typeof`, `a || b` and the destructuring
 * `const { key } = body`.
 */
module JsValue {

  /** A JavaScript value as it can appear in a parsed JSON body.
      `Undefined` stands for a field that is not present. `Num` stands for
      a finite parsed number; the `Infinity` that an overflowing literal
      such as `1e400` parses to has no `Value` here. */
  datatype Value =
    | Undefined
    | Null
    | Bool(b: bool)
    | Num(n: real)
    | Str(s: string)
    | Arr(items: seq<Value>)
    | Obj(fields: map<string, Value>)

  /** The values `!v` is true of: undefined, null, false, 0 (and -0) and "". */
  predicate Falsy(v: Value)
    ensures Falsy(v) <==>
      v == Undefined || v == Null || v == Bool(false) || v == Num(0.0) || v == Str("")
  {
    match v
    case Undefined => true
    case Null => true
    case Bool(b) => !b
    case Num(n) => n == 0.0
    case Str(s) => s == []
    case Arr(_) => false
    case Obj(_) => false
  }

  /** The result of the `typeof` operator (null is an "object"). */
  function TypeOf(v: Value): (t: string)
    ensures t == "object" <==> v.Null? || v.Arr? || v.Obj?
    ensures t == "string" <==> v.Str?
    ensures t == "number" <==> v.Num?
  {
    match v
    case Undefined => "undefined"
    case Null => "object"
    case Bool(_) => "boolean"
    case Num(_) => "number"
    case Str(_) => "string"
    case Arr(_) => "object"
    case Obj(_) => "object"
  }

  /** `v || d`: the left operand when it is truthy, the right one otherwise.
      The result is one of the operands, and it is falsy only when both are. */
  function Or(v: Value, d: Value): (r: Value)
    ensures r == v || r == d
    ensures Falsy(r) <==> Falsy(v) && Falsy(d)
  {
    if Falsy(v) then d else v
  }

  /** `const { key } = body`: the named property of an object body, and
      `undefined` when the property is missing or the body is not an object. */
  function Get(body: Value, key: string): Value {
    if body.Obj? && key in body.fields then body.fields[key] else Undefined
  }
}
