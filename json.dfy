/** The part of `serde_json::Value` the modelled code inspects or builds. */
module Json {
  import opened Common

  /** A JSON value. Numbers are integers only: the modelled code never reads or writes a fraction. */
  datatype Json =
    | JNull
    | JBool(b: bool)
    | JNum(n: int)
    | JStr(s: string)
    | JArr(items: seq<Json>)
    | JObj(fields: map<string, Json>)

  /** `v.as_u64()`: the value as an unsigned 64-bit integer, when it is one. */
  function AsU64(v: Json): (r: Option<u64>)
    ensures r.Some? <==> v.JNum? && 0 <= v.n < 0x1_0000_0000_0000_0000
    ensures r.Some? ==> v == JNum(r.value)
  {
    if v.JNum? && 0 <= v.n < 0x1_0000_0000_0000_0000 then Some(v.n) else None
  }

  /** `obj.get(key).and_then(|v| v.as_u64())` */
  function GetU64(fields: map<string, Json>, key: string): (r: Option<u64>)
    ensures r.Some? ==> key in fields && fields[key] == JNum(r.value)
    ensures key !in fields ==> r.None?
  {
    if key in fields then AsU64(fields[key]) else None
  }

  /** `obj.get(key)` matched against `Some(Value::String(s))` */
  function GetStr(fields: map<string, Json>, key: string): (r: Option<string>)
    ensures r.Some? <==> key in fields && fields[key].JStr?
    ensures r.Some? ==> fields[key] == JStr(r.value)
  {
    if key in fields && fields[key].JStr? then Some(fields[key].s) else None
  }
}
