/** The outgoing message body `PostMessageBody` and its builder (src/models/message.rs). */
module Message {
  import opened Common
  import opened Json

  /** `PostMessageBody`: a message type and five optional fields. */
  datatype PostMessageBody = PostMessageBody(
    msgType: u8,
    msgId: Option<string>,
    content: Option<string>,
    eventId: Option<string>,
    msgSeq: Option<string>,
    isWakeup: Option<bool>)

  /** No optional field is set. */
  predicate Bare(b: PostMessageBody) {
    b.msgId.None? && b.content.None? && b.eventId.None? && b.msgSeq.None? && b.isWakeup.None?
  }

  /** `from_msg_type`: the given type, everything else at its default. */
  function FromMsgType(msgType: u8): (b: PostMessageBody)
    ensures b.msgType == msgType && Bare(b)
  {
    PostMessageBody(msgType, None, None, None, None, None)
  }

  /** `with_content` */
  function WithContent(b: PostMessageBody, content: string): (r: PostMessageBody)
    ensures r.content == Some(content)
    ensures r.msgType == b.msgType && r.msgId == b.msgId && r.eventId == b.eventId
    ensures r.msgSeq == b.msgSeq && r.isWakeup == b.isWakeup
  {
    b.(content := Some(content))
  }

  /** `with_msg_id` */
  function WithMsgId(b: PostMessageBody, msgId: string): (r: PostMessageBody)
    ensures r.msgId == Some(msgId)
    ensures r.msgType == b.msgType && r.content == b.content && r.eventId == b.eventId
    ensures r.msgSeq == b.msgSeq && r.isWakeup == b.isWakeup
  {
    b.(msgId := Some(msgId))
  }

  /** `with_event_id` */
  function WithEventId(b: PostMessageBody, eventId: string): (r: PostMessageBody)
    ensures r.eventId == Some(eventId)
    ensures r.msgType == b.msgType && r.msgId == b.msgId && r.content == b.content
    ensures r.msgSeq == b.msgSeq && r.isWakeup == b.isWakeup
  {
    b.(eventId := Some(eventId))
  }

  /** `with_msg_seq` */
  function WithMsgSeq(b: PostMessageBody, msgSeq: string): (r: PostMessageBody)
    ensures r.msgSeq == Some(msgSeq)
    ensures r.msgType == b.msgType && r.msgId == b.msgId && r.content == b.content
    ensures r.eventId == b.eventId && r.isWakeup == b.isWakeup
  {
    b.(msgSeq := Some(msgSeq))
  }

  /** `with_is_wakeup` */
  function WithIsWakeup(b: PostMessageBody, isWakeup: bool): (r: PostMessageBody)
    ensures r.isWakeup == Some(isWakeup)
    ensures r.msgType == b.msgType && r.msgId == b.msgId && r.content == b.content
    ensures r.eventId == b.eventId && r.msgSeq == b.msgSeq
  {
    b.(isWakeup := Some(isWakeup))
  }

  /** The derived `Serialize`: `msg_type` is always written; every optional field carries
      `skip_serializing_if = "Option::is_none"`. */
  function Encode(b: PostMessageBody): (m: map<string, Json>)
    ensures "msg_type" in m && m["msg_type"] == JNum(b.msgType)
    ensures "msg_id" in m <==> b.msgId.Some?
    ensures "content" in m <==> b.content.Some?
    ensures "event_id" in m <==> b.eventId.Some?
    ensures "msg_seq" in m <==> b.msgSeq.Some?
    ensures "is_wakeup" in m <==> b.isWakeup.Some?
    ensures m.Keys <= {"msg_type", "msg_id", "content", "event_id", "msg_seq", "is_wakeup"}
  {
    var m0 := map["msg_type" := JNum(b.msgType)];
    var m1 := if b.msgId.Some? then m0["msg_id" := JStr(b.msgId.value)] else m0;
    var m2 := if b.content.Some? then m1["content" := JStr(b.content.value)] else m1;
    var m3 := if b.eventId.Some? then m2["event_id" := JStr(b.eventId.value)] else m2;
    var m4 := if b.msgSeq.Some? then m3["msg_seq" := JStr(b.msgSeq.value)] else m3;
    if b.isWakeup.Some? then m4["is_wakeup" := JBool(b.isWakeup.value)] else m4
  }

  /** A body straight from `from_msg_type` is written as `{"msg_type": m}` alone. */
  lemma EncodeFresh(msgType: u8)
    ensures Encode(FromMsgType(msgType)) == map["msg_type" := JNum(msgType)]
  {
  }

  /** The optional fields read back from the encoding: a present key holds exactly its value. */
  lemma EncodeValues(b: PostMessageBody)
    ensures b.msgId.Some? ==> Encode(b)["msg_id"] == JStr(b.msgId.value)
    ensures b.content.Some? ==> Encode(b)["content"] == JStr(b.content.value)
    ensures b.eventId.Some? ==> Encode(b)["event_id"] == JStr(b.eventId.value)
    ensures b.msgSeq.Some? ==> Encode(b)["msg_seq"] == JStr(b.msgSeq.value)
    ensures b.isWakeup.Some? ==> Encode(b)["is_wakeup"] == JBool(b.isWakeup.value)
  {
  }

  /** Bodies are told apart by their encoding. */
  lemma EncodeInjective(b: PostMessageBody, c: PostMessageBody)
    requires Encode(b) == Encode(c)
    ensures b == c
  {
  }

  /** Calling the same setter twice keeps the last value. */
  lemma LastSetterWins(b: PostMessageBody, x: string, y: string, w: bool, v: bool)
    ensures WithContent(WithContent(b, x), y) == WithContent(b, y)
    ensures WithMsgId(WithMsgId(b, x), y) == WithMsgId(b, y)
    ensures WithEventId(WithEventId(b, x), y) == WithEventId(b, y)
    ensures WithMsgSeq(WithMsgSeq(b, x), y) == WithMsgSeq(b, y)
    ensures WithIsWakeup(WithIsWakeup(b, w), v) == WithIsWakeup(b, v)
  {
  }

  /** Setters on different fields commute. */
  lemma SettersCommute(b: PostMessageBody, content: string, msgId: string, eventId: string, msgSeq: string, isWakeup: bool)
    ensures WithMsgId(WithContent(b, content), msgId) == WithContent(WithMsgId(b, msgId), content)
    ensures WithEventId(WithContent(b, content), eventId) == WithContent(WithEventId(b, eventId), content)
    ensures WithMsgSeq(WithContent(b, content), msgSeq) == WithContent(WithMsgSeq(b, msgSeq), content)
    ensures WithIsWakeup(WithContent(b, content), isWakeup) == WithContent(WithIsWakeup(b, isWakeup), content)
    ensures WithEventId(WithMsgId(b, msgId), eventId) == WithMsgId(WithEventId(b, eventId), msgId)
    ensures WithMsgSeq(WithMsgId(b, msgId), msgSeq) == WithMsgId(WithMsgSeq(b, msgSeq), msgId)
    ensures WithIsWakeup(WithMsgId(b, msgId), isWakeup) == WithMsgId(WithIsWakeup(b, isWakeup), msgId)
    ensures WithMsgSeq(WithEventId(b, eventId), msgSeq) == WithEventId(WithMsgSeq(b, msgSeq), eventId)
    ensures WithIsWakeup(WithEventId(b, eventId), isWakeup) == WithEventId(WithIsWakeup(b, isWakeup), eventId)
    ensures WithIsWakeup(WithMsgSeq(b, msgSeq), isWakeup) == WithMsgSeq(WithIsWakeup(b, isWakeup), msgSeq)
  {
  }

  /** Every body is reachable from `from_msg_type` through the setters of its present fields. */
  lemma BuilderReachesEvery(b: PostMessageBody)
    ensures b == Build(b.msgType, b.msgId, b.content, b.eventId, b.msgSeq, b.isWakeup)
  {
  }

  /** `from_msg_type(t)` followed by the setters of the given fields, in declaration order. */
  function Build(msgType: u8, msgId: Option<string>, content: Option<string>, eventId: Option<string>,
                 msgSeq: Option<string>, isWakeup: Option<bool>): (b: PostMessageBody)
    ensures b.msgType == msgType
  {
    var b0 := FromMsgType(msgType);
    var b1 := if msgId.Some? then WithMsgId(b0, msgId.value) else b0;
    var b2 := if content.Some? then WithContent(b1, content.value) else b1;
    var b3 := if eventId.Some? then WithEventId(b2, eventId.value) else b2;
    var b4 := if msgSeq.Some? then WithMsgSeq(b3, msgSeq.value) else b3;
    if isWakeup.Some? then WithIsWakeup(b4, isWakeup.value) else b4
  }
}
