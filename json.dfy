/** JSON values as serde_json's `Value` holds them, and the accessors the server reads them with. */
module JsonValue {
  import opened Wrappers

  /**
   * A JSON value. Numbers are integers only (see README, Left out); an object
   * is a map from keys to values, as serde_json's default `Map` is.
   */
  datatype Json =
    | Null
    | Bool(b: bool)
    | Int(i: int)
    | Str(s: string)
    | Arr(items: seq<Json>)
    | Obj(fields: map<string, Json>)

  const U64_BOUND: int := 0x1_0000_0000_0000_0000
  const I64_MIN: int := -0x8000_0000_0000_0000
  const I64_BOUND: int := 0x8000_0000_0000_0000

  /** The value fits Rust's `i64`. */
  predicate InI64(i: int) {
    I64_MIN <= i < I64_BOUND
  }

  /** The empty object `{}`. */
  const EmptyObject: Json := Obj(map[])

  /** `Value::get(key)`: a field of an object; `None` for every other kind of value. */
  function Get(v: Json, key: string): (r: Option<Json>)
    ensures r.Some? <==> v.Obj? && key in v.fields
    ensures r.Some? ==> r.value == v.fields[key]
  {
    if v.Obj? && key in v.fields then Some(v.fields[key]) else None
  }

  /** `Value::as_str` */
  function AsStr(v: Json): (r: Option<string>)
    ensures r.Some? <==> v.Str?
    ensures r.Some? ==> v == Str(r.value)
  {
    if v.Str? then Some(v.s) else None
  }

  /** `Value::as_u64`: the value of an integer that fits `u64`, and nothing for any other value. */
  function AsU64(v: Json): (r: Option<nat>)
    ensures r.Some? <==> v.Int? && 0 <= v.i < U64_BOUND
    ensures r.Some? ==> r.value == v.i && r.value < U64_BOUND
  {
    if v.Int? && 0 <= v.i < U64_BOUND then Some(v.i) else None
  }

  /** `Value::as_i64`: the value of an integer that fits `i64`, and nothing for any other value. */
  function AsI64(v: Json): (r: Option<int>)
    ensures r.Some? <==> v.Int? && InI64(v.i)
    ensures r.Some? ==> r.value == v.i && InI64(r.value)
  {
    if v.Int? && InI64(v.i) then Some(v.i) else None
  }

  /** A string field of an object; nothing when absent or of another kind. */
  function GetStr(v: Json, key: string): Option<string> {
    match Get(v, key)
    case Some(x) => AsStr(x)
    case None => None
  }

  /** An unsigned 64-bit field of an object; nothing when absent, of another kind or out of range. */
  function GetU64(v: Json, key: string): Option<nat> {
    match Get(v, key)
    case Some(x) => AsU64(x)
    case None => None
  }

  /** A signed 64-bit field of an object; nothing when absent, of another kind or out of range. */
  function GetI64(v: Json, key: string): Option<int> {
    match Get(v, key)
    case Some(x) => AsI64(x)
    case None => None
  }

  /** A field of an object, the empty object when it is absent. */
  function GetOrEmpty(v: Json, key: string): Json {
    Get(v, key).GetOr(EmptyObject)
  }

  /** A one-field object. */
  function Obj1(k: string, v: Json): Json {
    Obj(map[k := v])
  }

  /** A JSON array of strings. */
  function StrArr(ss: seq<string>): (r: Json)
    ensures r.Arr? && |r.items| == |ss|
    ensures forall i :: 0 <= i < |ss| ==> r.items[i] == Str(ss[i])
  {
    Arr(seq(|ss|, i requires 0 <= i < |ss| => Str(ss[i])))
  }
}
