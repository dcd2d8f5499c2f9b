/**
 * The values the browser code reads out of `await res.json()`, with the
 * JavaScript operations the components apply to them: truthiness and
 * `||`, property reads, `String(v)` (template interpolation) and
 * `.length > 0`. A fetch is an outcome handed to the model, never a call.
 */
module Json {
  import opened Common
  import opened Text

  /** A JavaScript value that JSON can produce, plus `undefined` for a missing property. */
  datatype Value =
    | Undefined
    | Null
    | Bool(b: bool)
    | Num(n: int)
    | Str(s: string)
    | Arr(items: seq<Value>)
    | Obj(props: map<string, Value>)

  predicate Nullish(v: Value) { v.Undefined? || v.Null? }

  /** JavaScript truthiness (JSON has no NaN, so `0` is the only falsy number). */
  predicate Truthy(v: Value)
    ensures Truthy(v) ==> !Nullish(v)
  {
    match v
    case Undefined => false
    case Null => false
    case Bool(b) => b
    case Num(n) => n != 0
    case Str(s) => s != []
    case Arr(_) => true
    case Obj(_) => true
  }

  /** `a || b`. */
  function Or(a: Value, b: Value): (r: Value)
    ensures r == a || r == b
    ensures Truthy(r) <==> Truthy(a) || Truthy(b)
  {
    if Truthy(a) then a else b
  }

  /**
   * `v.key` on a value that is not `null`/`undefined` (reading a property of those throws a TypeError,
   * which callers model as their failure branch). Strings and arrays answer `length`.
   */
  function Prop(v: Value, key: string): (r: Value)
    requires !Nullish(v)
    ensures key != "length" && !(v.Obj? && key in v.props) ==> r == Undefined
  {
    match v
    case Obj(props) => if key in props then props[key] else Undefined
    case Str(s) => if key == "length" then Num(|s|) else Undefined
    case Arr(items) => if key == "length" then Num(|items|) else Undefined
    case _ => Undefined
  }

  /** `String(v)`, which is also what `${v}` in a template literal produces. */
  function ToStr(v: Value): (r: string)
    ensures v.Str? ==> r == v.s
    ensures !v.Str? && !v.Arr? ==> r != []
    decreases v
  {
    match v
    case Undefined => "undefined"
    case Null => "null"
    case Bool(b) => if b then "true" else "false"
    case Num(n) => IntToString(n)
    case Str(s) => s
    case Arr(items) =>
      Join(seq(|items|, i requires 0 <= i < |items| => if Nullish(items[i]) then "" else ToStr(items[i])), ",")
    case Obj(_) => "[object Object]"
  }

  /**
   * `v.length > 0` for a value that is not `null`/`undefined`. An object counts when it carries a positive
   * numeric `length` property; a `length` that is a numeric string is not converted.
   */
  predicate HasItems(v: Value)
    ensures HasItems(v) ==> Truthy(v)
  {
    match v
    case Str(s) => s != []
    case Arr(items) => items != []
    case Obj(props) => "length" in props && props["length"].Num? && props["length"].n > 0
    case _ => false
  }

  /** The elements `forEach`/`map` visit, or `None` when the value has no such method (a TypeError). */
  function Elements(v: Value): Option<seq<Value>> {
    if v.Arr? then Some(v.items) else None
  }

  /** The body of a settled response as `res.json()` reads it. */
  datatype Body = Parsed(value: Value) | Malformed(reason: string)

  /**
   * The outcome of one `fetch`: a 2xx response (`res.ok`), any other status, or a rejected promise
   * (network error, CORS refusal, or an abort by the caller's timeout), with the exception's message.
   */
  datatype Response = Ok(body: Body) | NotOk(status: int, body: Body) | Failed(reason: string)

  /**
   * `const res = await fetch(...); const data = await res.json();` inside a `try`: the parsed body when
   * both steps succeed, whatever the status code, and `None` when either throws.
   */
  function ReadJson(r: Response): (d: Option<Value>)
    ensures d.Some? <==> !r.Failed? && r.body.Parsed?
    ensures d.Some? ==> d.value == r.body.value
  {
    match r
    case Failed(_) => None
    case Ok(Parsed(v)) => Some(v)
    case NotOk(_, Parsed(v)) => Some(v)
    case _ => None
  }

  /** The message V8 gives the TypeError thrown by reading `key` of `null`. */
  function NullReadMessage(key: string): string {
    "Cannot read properties of null (reading '" + key + "')"
  }
}
