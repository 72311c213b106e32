/** The webhook side (src/services/server.rs): the choice of event handler made by
    `ServerBuilder`, the opcode routing of `qq_bot_event_handler` and the event-type routing of
    `dispatch_event`. The user handler's effect is a parameter `react`; the ed25519 signer is a
    parameter `sign`. */
module Server {
  import opened Common
  import opened Json
  import opened Event
  import opened Errors
  import opened Validation

  /** `Config`; the client secret is kept as the bytes of its UTF-8 text. */
  datatype Config = Config(appId: string, clientSecret: seq<byte>)

  /** The handler objects a server can hold: the built-in `DefaultEventHandler`, or one the
      user supplied, named so that two can be told apart. */
  datatype EventHandler = DefaultEventHandler | CustomHandler(name: string)

  /** `ServerBuilder`: the configuration and the handler supplied so far, if any. */
  datatype ServerBuilder = ServerBuilder(config: Config, eventHandler: Option<EventHandler>)

  /** `ServerBuilder::new` */
  function NewBuilder(config: Config): (b: ServerBuilder)
    ensures b.config == config && b.eventHandler.None?
  {
    ServerBuilder(config, None)
  }

  /** `with_event_handler`: a later call replaces an earlier one. */
  function WithEventHandler(b: ServerBuilder, handler: EventHandler): (r: ServerBuilder)
    ensures r.config == b.config && r.eventHandler == Some(handler)
  {
    b.(eventHandler := Some(handler))
  }

  /** The handler `start` puts into the application state:
      `event_handler.unwrap_or_else(|| Arc::new(DefaultEventHandler))`. */
  function ChosenHandler(b: ServerBuilder): (h: EventHandler)
    ensures b.eventHandler.None? ==> h == DefaultEventHandler
    ensures b.eventHandler.Some? ==> h == b.eventHandler.value
  {
    b.eventHandler.GetOr(DefaultEventHandler)
  }

  /** A server built without a handler uses `DefaultEventHandler`; with one, it uses the last
      one supplied. */
  lemma HandlerChoice(config: Config, h1: EventHandler, h2: EventHandler)
    ensures ChosenHandler(NewBuilder(config)) == DefaultEventHandler
    ensures ChosenHandler(WithEventHandler(NewBuilder(config), h1)) == h1
    ensures ChosenHandler(WithEventHandler(WithEventHandler(NewBuilder(config), h1), h2)) == h2
  {
  }

  /** `AppState` without the HTTP client. */
  datatype AppState = AppState(config: Config, eventHandler: EventHandler)

  /** `GroupMessage`, with its nested `Author` and `MessageScene` flattened. */
  datatype GroupMessage = GroupMessage(
    authorId: string, memberOpenid: string, unionOpenid: string,
    content: string, groupId: string, groupOpenid: string, id: string,
    source: string, messageType: u8, timestamp: string)

  /** `obj` has an object under `key`. */
  predicate HasObject(obj: map<string, Json>, key: string) {
    key in obj && obj[key].JObj?
  }

  /** `serde_json::from_value::<GroupMessage>(d)`: every field is required and must have its
      type; other keys are ignored. */
  function DecodeGroupMessage(d: Option<Json>): (r: Option<GroupMessage>)
    ensures r.Some? <==>
      d.Some? && d.value.JObj? &&
      var f := d.value.fields;
      HasObject(f, "author") && HasObject(f, "message_scene") &&
      GetStr(f["author"].fields, "id").Some? && GetStr(f["author"].fields, "member_openid").Some? &&
      GetStr(f["author"].fields, "union_openid").Some? &&
      GetStr(f, "content").Some? && GetStr(f, "group_id").Some? && GetStr(f, "group_openid").Some? &&
      GetStr(f, "id").Some? && GetStr(f["message_scene"].fields, "source").Some? &&
      GetU64(f, "message_type").Some? && GetU64(f, "message_type").value < 0x100 &&
      GetStr(f, "timestamp").Some?
    ensures r.Some? ==>
      var f := d.value.fields;
      var m := r.value;
      && f["author"].fields["id"] == JStr(m.authorId)
      && f["author"].fields["member_openid"] == JStr(m.memberOpenid)
      && f["author"].fields["union_openid"] == JStr(m.unionOpenid)
      && f["content"] == JStr(m.content)
      && f["group_id"] == JStr(m.groupId)
      && f["group_openid"] == JStr(m.groupOpenid)
      && f["id"] == JStr(m.id)
      && f["message_scene"].fields["source"] == JStr(m.source)
      && f["message_type"] == JNum(m.messageType)
      && f["timestamp"] == JStr(m.timestamp)
  {
    if d.None? || !d.value.JObj? then None
    else
      var f := d.value.fields;
      if !HasObject(f, "author") || !HasObject(f, "message_scene") then None
      else
        var author := f["author"].fields;
        var scene := f["message_scene"].fields;
        var authorId, memberOpenid, unionOpenid := GetStr(author, "id"), GetStr(author, "member_openid"), GetStr(author, "union_openid");
        var content, groupId, groupOpenid := GetStr(f, "content"), GetStr(f, "group_id"), GetStr(f, "group_openid");
        var id, source, timestamp := GetStr(f, "id"), GetStr(scene, "source"), GetStr(f, "timestamp");
        var messageType := GetU64(f, "message_type");
        if authorId.None? || memberOpenid.None? || unionOpenid.None? || content.None? || groupId.None?
           || groupOpenid.None? || id.None? || source.None? || timestamp.None?
           || messageType.None? || messageType.value >= 0x100
        then None
        else Some(GroupMessage(authorId.value, memberOpenid.value, unionOpenid.value, content.value,
                               groupId.value, groupOpenid.value, id.value, source.value,
                               messageType.value, timestamp.value))
  }

  /** The only event type `EventType::from_str` accepts. */
  const GroupAtMessageCreate: string := "GROUP_AT_MESSAGE_CREATE"

  /** The cause kept in `SerializationError` when the payload is not a `GroupMessage`; the
      text serde would give is not modelled. */
  const MalformedGroupMessage: string := "invalid GroupMessage"

  /** What `dispatch_event` returns, and the messages it handed to the handler. */
  datatype Dispatched = Dispatched(result: Outcome<AppError>, delivered: seq<GroupMessage>)

  /** `dispatch_event(payload, state)`. `react(h, m)` is what handler `h` returns for message `m`. */
  function DispatchEvent(payload: Frame, state: AppState, react: (EventHandler, GroupMessage) -> Outcome<ClientError>): (r: Dispatched)
    ensures |r.delivered| <= 1
    ensures payload.t.None? ==> r == Dispatched(Pass, [])
    ensures |r.delivered| == 1 <==>
      payload.t == Some(GroupAtMessageCreate) && DecodeGroupMessage(payload.d).Some?
    ensures |r.delivered| == 1 ==> r.delivered[0] == DecodeGroupMessage(payload.d).value
    ensures r.result.Pass? <==>
      (payload.t.None? || (|r.delivered| == 1 && react(state.eventHandler, r.delivered[0]).Pass?))
  {
    match payload.t
    case None => Dispatched(Pass, [])
    case Some(t) =>
      if t == GroupAtMessageCreate then
        match DecodeGroupMessage(payload.d)
        case None => Dispatched(Fail(SerializationError(MalformedGroupMessage)), [])
        case Some(message) =>
          match react(state.eventHandler, message)
          case Pass => Dispatched(Pass, [message])
          case Fail(e) => Dispatched(Fail(ClientError(e)), [message])
      else Dispatched(Fail(ValidationError("Unknown event type: " + t)), [])
  }

  /** The errors `dispatch_event` can give for a typed event: a payload that is not a group
      message, the handler's own error wrapped as a client error, or an unknown event type. */
  lemma DispatchErrors(payload: Frame, state: AppState, react: (EventHandler, GroupMessage) -> Outcome<ClientError>)
    requires payload.t.Some?
    ensures var r := DispatchEvent(payload, state, react);
      && (payload.t.value != GroupAtMessageCreate ==>
            r == Dispatched(Fail(ValidationError("Unknown event type: " + payload.t.value)), []))
      && (payload.t.value == GroupAtMessageCreate && DecodeGroupMessage(payload.d).None? ==>
            r.result == Fail(SerializationError(MalformedGroupMessage)))
      && (payload.t.value == GroupAtMessageCreate && DecodeGroupMessage(payload.d).Some? ==>
            var m := DecodeGroupMessage(payload.d).value;
            react(state.eventHandler, m).Fail? ==> r.result == Fail(ClientError(react(state.eventHandler, m).error)))
  {
  }

  /** The body `{"op": 12}` of `CallbackACK`. */
  const CallbackAckBody: Json := JObj(map["op" := JNum(ToByte(CallbackAck))])

  /** How `qq_bot_event_handler` ends: a JSON reply (and, for a Dispatch, the spawned
      `dispatch_event`, whose result only reaches the log), an `AppError`, or the panic of
      `validate_webhook` on a malformed validation payload. */
  datatype HandlerOutcome =
    | Replied(body: Json, spawned: Option<Dispatched>)
    | Rejected(err: AppError)
    | Panicked

  /** `qq_bot_event_handler(state, payload)` */
  function HandleEvent(payload: Frame, state: AppState, sign: Signer,
                       react: (EventHandler, GroupMessage) -> Outcome<ClientError>): (r: HandlerOutcome)
    requires TryFrom(payload.op) == Some(WebhookValidate) && ParseValidationRequest(payload.d).Some?
             ==> |state.config.clientSecret| > 0
    ensures r.Replied? && r.spawned.Some? <==> payload.op == 0
    ensures payload.op == 0 ==> r == Replied(CallbackAckBody, Some(DispatchEvent(payload, state, react)))
    ensures r.Panicked? <==> payload.op == 13 && ParseValidationRequest(payload.d).None?
    ensures payload.op !in Discriminants ==>
      r == Rejected(ValidationError("Invalid opcode: " + DecimalString(payload.op)))
    ensures payload.op in Discriminants - {0, 13} ==>
      r == Rejected(ValidationError("Unsupported opcode: " + DecimalString(payload.op)))
  {
    match TryFrom(payload.op)
    case None => Rejected(ValidationError("Invalid opcode: " + DecimalString(payload.op)))
    case Some(op) =>
      match op
      case Dispatch => Replied(CallbackAckBody, Some(DispatchEvent(payload, state, react)))
      case WebhookValidate =>
        (match Validated(payload, state.config.clientSecret, sign)
         case None => Panicked
         case Some(response) => Replied(EncodeResponse(response), None))
      case _ => Rejected(ValidationError("Unsupported opcode: " + DecimalString(payload.op)))
  }

  /** The HTTP response the handler produces; `None` when it panicked. */
  function Respond(r: HandlerOutcome): (resp: Option<HttpResponse>)
    ensures resp.None? <==> r.Panicked?
    ensures r.Replied? ==> resp == Some(HttpResponse(200, r.body))
    ensures r.Rejected? ==> resp == Some(IntoResponse(r.err))
  {
    match r
    case Replied(body, _) => Some(HttpResponse(200, body))
    case Rejected(e) => Some(IntoResponse(e))
    case Panicked => None
  }

  /** A Dispatch is acknowledged with `{"op": 12}` and status 200 whatever the handler later
      does with it. */
  lemma DispatchAcknowledged(payload: Frame, state: AppState, sign: Signer,
                             react1: (EventHandler, GroupMessage) -> Outcome<ClientError>,
                             react2: (EventHandler, GroupMessage) -> Outcome<ClientError>)
    requires payload.op == 0
    ensures Respond(HandleEvent(payload, state, sign, react1)) == Respond(HandleEvent(payload, state, sign, react2))
    ensures Respond(HandleEvent(payload, state, sign, react1)) == Some(HttpResponse(200, JObj(map["op" := JNum(12)])))
  {
  }

  /** Every opcode other than Dispatch and WebhookValidate is answered 400, with a message
      telling a known but unsupported opcode from a byte that is no opcode. */
  lemma OtherOpcodesRejected(payload: Frame, state: AppState, sign: Signer,
                             react: (EventHandler, GroupMessage) -> Outcome<ClientError>)
    requires payload.op != 0 && payload.op != 13
    ensures var resp := Respond(HandleEvent(payload, state, sign, react));
      && resp.Some? && resp.value.status == 400
      && resp.value.body == ErrorBody(
           (if payload.op in Discriminants then "Unsupported opcode: " else "Invalid opcode: ")
           + DecimalString(payload.op))
  {
  }

  /** A well-formed address check is answered 200 with the same `plain_token` and the signature
      of `event_ts + plain_token` under the seed cycled from the client secret. */
  lemma ValidationAnswered(payload: Frame, state: AppState, sign: Signer,
                           react: (EventHandler, GroupMessage) -> Outcome<ClientError>)
    requires payload.op == 13 && ParseValidationRequest(payload.d).Some?
    requires |state.config.clientSecret| > 0
    ensures var req := ParseValidationRequest(payload.d).value;
      Respond(HandleEvent(payload, state, sign, react)) == Some(HttpResponse(200, JObj(map[
        "plain_token" := JStr(req.plainToken),
        "signature" := JStr(sign(SigningSeed(state.config.clientSecret), req.eventTs + req.plainToken))])))
  {
  }
}
