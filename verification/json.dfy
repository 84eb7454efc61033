/** JSON values and the accessors that request parsing and stream assembly share. */
module Json {
  import opened Common

  /** `Int` is a literal of digits with an optional minus sign; every other number is a `Frac`. */
  datatype Json =
    | Null
    | Bool(b: bool)
    | Int(n: int)
    | Frac(literal: string)
    | Str(s: string)
    | Arr(items: seq<Json>)
    | Obj(fields: map<string, Json>)

  type Fields = map<string, Json>

  const MAX_INT64 := 0x7FFF_FFFF_FFFF_FFFF
  const MAX_PAYLOAD := 16 * 1024 * 1024

  /** object, without a list of names; an absent value is None. */
  function ObjectValue(v: Option<Json>): Option<Fields> {
    if v.Some? && v.value.Obj? then Some(v.value.fields) else None
  }

  /** textValue */
  function TextValue(v: Option<Json>, empty: bool): Option<string> {
    if v.Some? && v.value.Str? && (empty || !Blank(v.value.s)) then Some(v.value.s) else None
  }

  /** An int64 that is not negative. */
  function CountValue(v: Json): Option<nat> {
    if v.Int? && 0 <= v.n <= MAX_INT64 then Some(v.n) else None
  }
}
