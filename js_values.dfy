/** JavaScript values as far as the caching middleware observes them: the
    bodies handed to `res.send`, their truthiness, and `||` on strings. */
module JsValues {

  datatype Option<+T> = None | Some(value: T)

  /** A response body. Numbers are integers here; NaN and fractions are not
      modelled. Objects and arrays keep their full structure. */
  datatype Body =
    | Text(s: string)
    | Num(n: int)
    | Bool(b: bool)
    | Null
    | Undefined
    | Obj(members: seq<(string, Body)>)
    | Arr(items: seq<Body>)

  /** The falsy values a body can take (NaN is not modelled). */
  const Falsy: set<Body> := {Text(""), Num(0), Bool(false), Null, Undefined}

  /** JavaScript truthiness, as `if (cachedBody)` tests it: a value is truthy
      exactly when it is not one of the five falsy values; every object and
      array is truthy. */
  predicate Truthy(v: Body)
    ensures Truthy(v) <==> v !in Falsy
  {
    match v
    case Text(s) => s != ""
    case Num(n) => n != 0
    case Bool(b) => b
    case Null => false
    case Undefined => false
    case Obj(_) => true
    case Arr(_) => true
  }

  /** `a || b` on two strings: the first operand when it is truthy
      (non-empty), else the second; the result is truthy when either is. */
  function Or(a: string, b: string): (r: string)
    ensures r == a || r == b
    ensures a != "" ==> r == a
    ensures r != "" <==> a != "" || b != ""
  {
    if a != "" then a else b
  }
}
