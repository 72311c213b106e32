/** The gateway frame `QQBotEvent` and the `OpCode` enum of src/models/event.rs. */
module Event {
  import opened Common
  import opened Json

  /** The opcodes, each with the discriminant `ToByte` gives it. */
  datatype OpCode =
    | Dispatch
    | Heartbeat
    | Identify
    | Resume
    | Reconnect
    | InvalidSession
    | Hello
    | HeartbeatAck
    | CallbackAck
    | WebhookValidate

  /** The bytes `#[repr(u8)]` assigns to some opcode. */
  const Discriminants: set<u8> := {0, 1, 2, 6, 7, 9, 10, 11, 12, 13}

  /** `IntoPrimitive`: `u8::from(op)`. */
  function ToByte(op: OpCode): (b: u8)
    ensures b in Discriminants
  {
    match op
    case Dispatch => 0
    case Heartbeat => 1
    case Identify => 2
    case Resume => 6
    case Reconnect => 7
    case InvalidSession => 9
    case Hello => 10
    case HeartbeatAck => 11
    case CallbackAck => 12
    case WebhookValidate => 13
  }

  /** `TryFromPrimitive`: `OpCode::try_from(b)`, `None` standing for the error. */
  function TryFrom(b: u8): (r: Option<OpCode>)
    ensures r.Some? <==> b in Discriminants
    ensures r.Some? ==> ToByte(r.value) == b
  {
    if b == 0 then Some(Dispatch)
    else if b == 1 then Some(Heartbeat)
    else if b == 2 then Some(Identify)
    else if b == 6 then Some(Resume)
    else if b == 7 then Some(Reconnect)
    else if b == 9 then Some(InvalidSession)
    else if b == 10 then Some(Hello)
    else if b == 11 then Some(HeartbeatAck)
    else if b == 12 then Some(CallbackAck)
    else if b == 13 then Some(WebhookValidate)
    else None
  }

  /** Decoding an encoded opcode gives it back. */
  lemma TryFromToByte(op: OpCode)
    ensures TryFrom(ToByte(op)) == Some(op)
  {
  }

  /** Distinct opcodes have distinct discriminants. */
  lemma ToByteInjective(a: OpCode, b: OpCode)
    requires a != b
    ensures ToByte(a) != ToByte(b)
  {
  }

  /** `OpCode::try_from(b).unwrap_or(OpCode::Dispatch)`: how the gateway connection classifies a
      frame, so that a byte outside the enum is handled as a Dispatch. */
  function RouteOp(b: u8): (op: OpCode)
    ensures b in Discriminants ==> ToByte(op) == b
    ensures b !in Discriminants ==> op == Dispatch
  {
    TryFrom(b).GetOr(Dispatch)
  }

  /** A frame is classified as Hello exactly when its op byte is 10. */
  lemma RouteOpHello(b: u8)
    ensures RouteOp(b) == Hello <==> b == 10
  {
  }

  /** `QQBotEvent`: one gateway frame. `d` is `Option<Value>`, so a JSON `null` payload and an
      absent one are the same after decoding. */
  datatype Frame = Frame(id: Option<string>, op: u8, d: Option<Json>, s: Option<u64>, t: Option<string>)

  /** `QQBotEvent::default()`. */
  function DefaultFrame(): (f: Frame)
    ensures f.op == 0 && f.id.None? && f.d.None? && f.s.None? && f.t.None?
  {
    Frame(None, 0, None, None, None)
  }

  /** The derived `Serialize`: `op` and `d` are always written (`d` as `null` when absent);
      `id`, `s` and `t` carry `skip_serializing_if = "Option::is_none"`. */
  function Encode(f: Frame): (m: map<string, Json>)
    ensures "op" in m && m["op"] == JNum(f.op)
    ensures "d" in m && m["d"] == f.d.GetOr(JNull)
    ensures "id" in m <==> f.id.Some?
    ensures "s" in m <==> f.s.Some?
    ensures "t" in m <==> f.t.Some?
    ensures m.Keys <= {"id", "op", "d", "s", "t"}
  {
    var base := map["op" := JNum(f.op), "d" := f.d.GetOr(JNull)];
    var withId := if f.id.Some? then base["id" := JStr(f.id.value)] else base;
    var withS := if f.s.Some? then withId["s" := JNum(f.s.value)] else withId;
    if f.t.Some? then withS["t" := JStr(f.t.value)] else withS
  }

  /** An `Option<String>` field: absent or `null` is `None`; any other non-string fails. */
  function DecodeOptStr(m: map<string, Json>, key: string): (r: Option<Option<string>>)
    ensures r.Some? <==> key !in m || m[key] == JNull || m[key].JStr?
    ensures r == Some(None) <==> key !in m || m[key] == JNull
    ensures r.Some? && r.value.Some? ==> m[key] == JStr(r.value.value)
  {
    if key !in m || m[key] == JNull then Some(None)
    else if m[key].JStr? then Some(Some(m[key].s))
    else None
  }

  /** An `Option<u64>` field: absent or `null` is `None`; a value that is not a `u64` fails. */
  function DecodeOptU64(m: map<string, Json>, key: string): (r: Option<Option<u64>>)
    ensures r.Some? <==> key !in m || m[key] == JNull || AsU64(m[key]).Some?
    ensures r == Some(None) <==> key !in m || m[key] == JNull
    ensures r.Some? && r.value.Some? ==> m[key] == JNum(r.value.value)
  {
    if key !in m || m[key] == JNull then Some(None)
    else if AsU64(m[key]).Some? then Some(AsU64(m[key]))
    else None
  }

  /** The derived `Deserialize` of a JSON object: `op` must be a `u8`; the `Option` fields may be
      absent or `null`; unknown keys are ignored. */
  function Decode(m: map<string, Json>): (r: Option<Frame>)
    ensures r.Some? <==>
      "op" in m && m["op"].JNum? && 0 <= m["op"].n < 0x100 &&
      DecodeOptStr(m, "id").Some? && DecodeOptU64(m, "s").Some? && DecodeOptStr(m, "t").Some?
    ensures r.Some? ==> "op" in m && m["op"] == JNum(r.value.op)
    ensures r.Some? ==> r.value.id == DecodeOptStr(m, "id").value
    ensures r.Some? ==> r.value.s == DecodeOptU64(m, "s").value
    ensures r.Some? ==> r.value.t == DecodeOptStr(m, "t").value
    ensures r.Some? ==> r.value.d == if "d" !in m || m["d"] == JNull then None else Some(m["d"])
    ensures r.Some? ==> r.value.d != Some(JNull)
  {
    if "op" !in m || !m["op"].JNum? || !(0 <= m["op"].n < 0x100) then None
    else
      var id := DecodeOptStr(m, "id");
      var s := DecodeOptU64(m, "s");
      var t := DecodeOptStr(m, "t");
      var d := if "d" !in m || m["d"] == JNull then None else Some(m["d"]);
      if id.None? || s.None? || t.None? then None
      else Some(Frame(id.value, m["op"].n, d, s.value, t.value))
  }

  /** `serde_json::from_str::<QQBotEvent>`, given the already-parsed JSON document. */
  function ParseFrame(doc: Json): (r: Option<Frame>)
    ensures r.Some? ==> doc.JObj?
    ensures doc.JObj? ==> r == Decode(doc.fields)
  {
    if doc.JObj? then Decode(doc.fields) else None
  }

  /** Round trip: decoding an encoded frame gives the frame back, except that a `null` payload
      reads back as an absent one. */
  lemma DecodeEncode(f: Frame)
    ensures Decode(Encode(f)) == Some(if f.d == Some(JNull) then f.(d := None) else f)
  {
  }

  /** Frames whose payload is not `null` are told apart by their encoding. */
  lemma EncodeInjective(f: Frame, g: Frame)
    requires f.d != Some(JNull) && g.d != Some(JNull)
    requires Encode(f) == Encode(g)
    ensures f == g
  {
  }
}
