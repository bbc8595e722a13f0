/**
 * The dynamically typed JSON value (`serde_json::Value`) that the API uses
 * as its entity payload type.
 */
module Json {
  import opened Wrappers

  /**
   * A 64-bit float, kept opaque: it is carried by the text serde_json prints
   * for it. Arithmetic on it never happens in the modelled code.
   */
  datatype F64 = F64(text: string) {
    /** NaN and the infinities are the values `Number::from_f64` refuses. */
    predicate IsFinite() {
      text != "NaN" && text != "inf" && text != "-inf"
    }
  }

  /**
   * A JSON value. Integers are serde_json's integer numbers (`i64` or `u64`);
   * `JFloat` is a number held as an `f64`. Objects are keyed by member name.
   */
  datatype Json =
    | JNull
    | JBool(b: bool)
    | JInt(i: int)
    | JFloat(f: F64)
    | JString(s: string)
    | JArray(items: seq<Json>)
    | JObject(members: map<string, Json>)

  const I64_MIN: int := -0x8000_0000_0000_0000
  const I64_MAX: int := 0x7FFF_FFFF_FFFF_FFFF

  /** `Number::is_i64`: the integer fits in a signed 64-bit integer. */
  predicate IsI64(i: int) {
    I64_MIN <= i <= I64_MAX
  }

  /** `Map::get`. */
  function Get(members: map<string, Json>, key: string): (r: Option<Json>)
    ensures r.Some? <==> key in members
    ensures r.Some? ==> r.value == members[key]
  {
    if key in members then Some(members[key]) else None
  }
}
