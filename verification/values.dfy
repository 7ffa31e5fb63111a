/** The values the relation layer passes around: foreign-key values, model
    instances, and the data/where/filter fragments it builds. */
module Values {

  /** A JSON-like value. `Undefined` is JavaScript's `undefined`, which is what
      reading a missing property yields. */
  datatype Json =
    | Undefined
    | Num(n: int)
    | Str(s: string)
    | Bool(b: bool)
    | Obj(fields: map<string, Json>)
    | Arr(items: seq<Json>)

  /** A plain object: a model instance, a data object, a where clause or a filter. */
  type Record = map<string, Json>

  /** Property access `r[k]`. */
  function Get(r: Record, k: string): Json {
    if k in r then r[k] else Undefined
  }
}
