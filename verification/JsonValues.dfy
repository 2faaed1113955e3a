/** JSON values as JavaScript holds them: an object is the list of its entries, in order. */
module JsonValues {
  datatype Field = Field(key: string, value: Json)

  /** `Big` is a JavaScript bigint, which the rules of a merchant may hold. */
  datatype Json =
    | Null
    | Bool(b: bool)
    | Num(n: real)
    | Str(s: string)
    | Big(i: int)
    | Arr(items: seq<Json>)
    | Obj(fields: seq<Field>)
}
