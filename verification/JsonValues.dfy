// JSON values as serde_json holds them: object fields in a map, integers apart from floats.
module JsonValues {

  datatype Json =
    | Null
    | Bool(b: bool)
    | Num(n: int)
    | Float(x: real)
    | Str(s: string)
    | Arr(items: seq<Json>)
    | Obj(fields: map<string, Json>)

  // Indexing: Null for anything that is not an object with that field.
  function Get(j: Json, key: string): Json {
    if j.Obj? && key in j.fields then j.fields[key] else Null
  }

  function I64Min(): int { -0x8000_0000_0000_0000 }

  function I64Max(): int { 0x7FFF_FFFF_FFFF_FFFF }

  predicate InI64(n: int) {
    I64Min() <= n <= I64Max()
  }

  predicate IsI64(j: Json) {
    j.Num? && InI64(j.n)
  }

  // as_i64().unwrap_or(0)
  function IntOrZero(j: Json): int {
    if IsI64(j) then j.n else 0
  }

  // as_f64().unwrap_or(0.0), exactly.
  function NumberOf(j: Json): real {
    match j
    case Num(n) => n as real
    case Float(x) => x
    case _ => 0.0
  }

  // The sum, or the end of the i64 range nearest to it.
  function SaturatingAdd(a: int, b: int): (r: int)
    ensures -9_223_372_036_854_775_808 <= r <= 9_223_372_036_854_775_807
    ensures r < a + b ==> r == 9_223_372_036_854_775_807
    ensures r > a + b ==> r == -9_223_372_036_854_775_808
  {
    if a + b < I64Min() then I64Min() else if a + b > I64Max() then I64Max() else a + b
  }
}
