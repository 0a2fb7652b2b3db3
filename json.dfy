/** JSON values as the webhook client sees them after `response.json()`,
    with numbers restricted to integers, and JavaScript truthiness. */
module Json {

  datatype Json =
    | Null
    | Bool(b: bool)
    | Number(n: int)
    | Str(s: string)
    | Array(items: seq<Json>)
    | Object(fields: map<string, Json>)

  /** JavaScript truthiness: `null`, `false`, `0` and `""` are falsy;
      every array and object, even an empty one, is truthy. */
  predicate Truthy(v: Json)
  {
    match v
    case Null => false
    case Bool(b) => b
    case Number(n) => n != 0
    case Str(s) => s != []
    case Array(_) => true
    case Object(_) => true
  }

  /** `obj[key]` is defined and truthy (an absent key reads as `undefined`, which is falsy). */
  predicate TruthyField(fields: map<string, Json>, key: string)
  {
    key in fields && Truthy(fields[key])
  }
}
