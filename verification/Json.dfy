/** JSON values, as far as the configuration tree and the unit parameters need them. Numbers
with a fraction are reals. */
module Json {
  datatype Json =
    | Null
    | Bool(b: bool)
    | Integer(i: int)
    | Number(r: real)
    | String(s: string)
    | Array(items: seq<Json>)
    | Object(fields: map<string, Json>)

  /** The number a numeric value stands for. */
  function Value(j: Json): real
    requires j.Integer? || j.Number?
  {
    if j.Integer? then j.i as real else j.r
  }

  predicate IsNumber(j: Json) {
    j.Integer? || j.Number?
  }
}
