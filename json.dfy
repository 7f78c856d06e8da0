/** JSON values as the request bodies carry them, and JavaScript's notion of a
    "falsy" value, which every presence check of the routers uses (`if (!x)`). */
module Json {

  datatype Option<+T> = None | Some(value: T)

  /** A JSON value. Numbers are the finite reals JSON can write; a field the
      request body leaves out is `JNull`, since the store serialises an
      `undefined` field as null. */
  datatype Json =
    | JNull
    | JBool(b: bool)
    | JNum(n: real)
    | JStr(s: string)
    | JArr(items: seq<Json>)
    | JObj(fields: map<string, Json>)

  /** JavaScript truthiness: null, false, 0 and "" are falsy, every array and
      every object (even an empty one) is truthy. */
  predicate Truthy(v: Json)
  {
    match v
    case JNull => false
    case JBool(b) => b
    case JNum(n) => n != 0.0
    case JStr(s) => s != ""
    case JArr(_) => true
    case JObj(_) => true
  }

  /** `!x` on an optional string (a missing cookie, a missing body field). */
  predicate Present(x: Option<string>)
  {
    x.Some? && x.value != ""
  }

  /** Truthiness is decided by the value alone: the falsy JSON values are
      exactly the four JavaScript falsy values JSON can carry. */
  lemma FalsyValues(v: Json)
    ensures !Truthy(v) <==> v in {JNull, JBool(false), JNum(0.0), JStr("")}
  {
  }
}
