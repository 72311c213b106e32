/** The gateway connection `WebSocketManager` (src/services/websocket/connection.rs).

    The transport, the timers and the random jitter are inputs. One connection attempt is an
    `Attempt`: whether the transport opened, the messages the read half yields in order, the
    order in which the `select!` loop wakes up (a message ready to read, a heartbeat tick, the
    acknowledgement deadline) and the jitter drawn if the attempt ends in an error. Sent frames
    are appended to a log. */
module Connection {
  import opened Common
  import opened Json
  import opened Event
  import opened Errors
  import opened State

  const MaxResumeRetries: nat := 3
  const ResumeWaitSeconds: nat := 30
  /** Seconds allowed for a HeartbeatACK; fixed, whatever interval Hello advertises. */
  const HeartbeatTimeoutSeconds: nat := 7
  const ReconnectBaseDelayMs: nat := 1000
  const ReconnectMaxDelayMs: nat := 5000
  /** `(RECONNECT_BASE_DELAY_MS as f64 * 0.8) as u64`; the product is exactly 800.0. */
  const JitterMinMs: nat := 800
  /** `(RECONNECT_BASE_DELAY_MS as f64 * 1.2) as u64`; the product is exactly 1200.0. */
  const JitterMaxMs: nat := 1200
  /** `1 << 30` */
  const Intents: int := 0x4000_0000
  /** The event type whose Dispatch carries the new session id. */
  const ReadyEvent: string := "READY"

  /** A value `rng.random_range(800..=1200)` can return. */
  type Jitter = j: int | 800 <= j <= 1200 witness 800

  // ---------------------------------------------------------------------------------------
  // Outbound frames

  /** `send_heartbeat`: op 1 whose payload is the last sequence number, or `null`. */
  function HeartbeatFrame(lastSeq: Option<u64>): (f: Frame)
    ensures Encode(f) == map["op" := JNum(1), "d" := if lastSeq.Some? then JNum(lastSeq.value) else JNull]
  {
    Frame(None, ToByte(Heartbeat), Some(if lastSeq.Some? then JNum(lastSeq.value) else JNull), None, None)
  }

  /** `send_identify`: op 2 carrying the token, intents `1 << 30` and shard `[0, 1]`. */
  function IdentifyFrame(token: string): (f: Frame)
    ensures Encode(f) == map[
      "op" := JNum(2),
      "d" := JObj(map["token" := JStr("QQBot " + token), "intents" := JNum(Intents), "shard" := JArr([JNum(0), JNum(1)])])]
  {
    var payload := map["token" := JStr("QQBot " + token), "intents" := JNum(Intents), "shard" := JArr([JNum(0), JNum(1)])];
    Frame(None, ToByte(Identify), Some(JObj(payload)), None, None)
  }

  /** `send_resume`: op 6 carrying the token, the session id and the sequence number. */
  function ResumeFrame(token: string, sessionId: string, sequence: u64): (f: Frame)
    ensures Encode(f) == map[
      "op" := JNum(6),
      "d" := JObj(map["token" := JStr("QQBot " + token), "session_id" := JStr(sessionId), "seq" := JNum(sequence)])]
  {
    var payload := map["token" := JStr("QQBot " + token), "session_id" := JStr(sessionId), "seq" := JNum(sequence)];
    Frame(None, ToByte(Resume), Some(JObj(payload)), None, None)
  }

  /** The first frame of a handshake: Resume when the session is resumable, Identify otherwise. */
  function HandshakeFrame(token: string, data: SessionData): (f: Frame)
    ensures IsResumable(data) ==> f == ResumeFrame(token, data.sessionId.value, data.lastSeq.value)
    ensures !IsResumable(data) ==> f == IdentifyFrame(token)
  {
    match (data.sessionId, data.lastSeq)
    case (Some(sid), Some(last)) => ResumeFrame(token, sid, last)
    case _ => IdentifyFrame(token)
  }

  /** A handshake is a Resume (op 6) exactly when the session is resumable, and an Identify
      (op 2) exactly when it is not. */
  lemma HandshakeChoice(token: string, data: SessionData)
    ensures HandshakeFrame(token, data).op == 6 <==> IsResumable(data)
    ensures HandshakeFrame(token, data).op == 2 <==> !IsResumable(data)
  {
  }

  /** On the wire, a heartbeat sent before any sequence number is known has a `null` payload,
      which decodes as no payload at all. */
  lemma HeartbeatWithoutSeqDecodes()
    ensures Decode(Encode(HeartbeatFrame(None))) == Some(Frame(None, 1, None, None, None))
  {
  }

  // ---------------------------------------------------------------------------------------
  // Inbound messages

  /** A `tungstenite::Message` as the read half yields it: a text frame (its JSON document, or
      `None` when the text is not JSON), a close frame, a read error, or anything else
      (binary, ping, pong). The end of the stream is the end of the inbound sequence. */
  datatype WsMessage = Text(doc: Option<Json>) | Close | ReadError | OtherMessage

  /** `serde_json::from_str::<QQBotEvent>(&text)` */
  function ParseText(doc: Option<Json>): (r: Option<Frame>)
    ensures r.Some? ==> doc.Some? && ParseFrame(doc.value) == r
    ensures doc.Some? ==> r == ParseFrame(doc.value)
  {
    if doc.Some? then ParseFrame(doc.value) else None
  }

  // ---------------------------------------------------------------------------------------
  // Waiting for Hello

  /** What one message does to the wait for Hello. */
  datatype HelloStep = Skip | Found(interval: u64) | Abort(err: WebSocketError)

  function HelloStepOf(m: WsMessage): HelloStep {
    match m
    case Text(doc) =>
      var parsed := ParseText(doc);
      if parsed.None? then Abort(Serialization)
      else if RouteOp(parsed.value.op) == Hello && parsed.value.d.Some? && parsed.value.d.value.JObj? then
        var interval := GetU64(parsed.value.d.value.fields, "heartbeat_interval");
        if interval.Some? then Found(interval.value) else Abort(MissingHeartbeatInterval)
      else Skip
    case Close => Abort(ConnectionClosed)
    case ReadError => Abort(ConnectionFailed)
    case OtherMessage => Skip
  }

  /** The result of the wait: the interval and how many messages were read, or the error. */
  datatype HelloOutcome = HelloReceived(interval: u64, consumed: nat) | HelloFailed(err: WebSocketError, consumed: nat)

  predicate SkippedRange(msgs: seq<WsMessage>, lo: nat, hi: nat)
    requires lo <= hi <= |msgs|
  {
    forall j | lo <= j < hi :: HelloStepOf(msgs[j]).Skip?
  }

  /** The wait for Hello from message `i` on: messages that are not a Hello with an object
      payload are skipped; the first Hello with an object payload gives its `heartbeat_interval`
      or `MissingHeartbeatInterval`; an unparsable text, a close frame or a read error ends the
      wait with an error, and so does the end of the stream. */
  function HelloWaitFrom(msgs: seq<WsMessage>, i: nat): (r: HelloOutcome)
    requires i <= |msgs|
    ensures i <= r.consumed <= |msgs|
    ensures r.consumed > i ==> SkippedRange(msgs, i, r.consumed - 1)
    ensures r.HelloReceived? ==> r.consumed > i && HelloStepOf(msgs[r.consumed - 1]) == Found(r.interval)
    ensures r.HelloFailed? ==>
      (r.consumed == |msgs| && SkippedRange(msgs, i, |msgs|) && r.err == ConnectionClosed) ||
      (r.consumed > i && HelloStepOf(msgs[r.consumed - 1]) == Abort(r.err))
    decreases |msgs| - i
  {
    if i == |msgs| then HelloFailed(ConnectionClosed, i)
    else
      match HelloStepOf(msgs[i])
      case Found(n) => HelloReceived(n, i + 1)
      case Abort(e) => HelloFailed(e, i + 1)
      case Skip => HelloWaitFrom(msgs, i + 1)
  }

  function HelloWait(msgs: seq<WsMessage>): HelloOutcome {
    HelloWaitFrom(msgs, 0)
  }

  /** The first loop of `connect_and_loop`: read until the Hello frame. */
  method AwaitHello(msgs: seq<WsMessage>) returns (r: HelloOutcome)
    ensures r == HelloWait(msgs)
  {
    var i := 0;
    while true
      invariant 0 <= i <= |msgs|
      invariant HelloWaitFrom(msgs, i) == HelloWait(msgs)
      decreases |msgs| - i
    {
      if i == |msgs| {
        return HelloFailed(ConnectionClosed, i);
      }
      match msgs[i] {
        case Text(doc) =>
          var event := ParseText(doc);
          if event.None? {
            return HelloFailed(Serialization, i + 1);
          }
          var d := event.value.d;
          if RouteOp(event.value.op) == Hello && d.Some? && d.value.JObj? {
            var interval := GetU64(d.value.fields, "heartbeat_interval");
            if interval.Some? {
              return HelloReceived(interval.value, i + 1);
            }
            return HelloFailed(MissingHeartbeatInterval, i + 1);
          }
        case Close =>
          return HelloFailed(ConnectionClosed, i + 1);
        case ReadError =>
          return HelloFailed(ConnectionFailed, i + 1);
        case OtherMessage =>
      }
      i := i + 1;
    }
  }

  // ---------------------------------------------------------------------------------------
  // The main loop

  /** What the `select!` loop wakes up for. */
  datatype Wake = ReadReady | TickDue | DeadlineDue

  /** The loop's state: the session, the `awaiting_ack` flag, the armed acknowledgement
      deadline in seconds (`None` is `sleep(Duration::MAX)`), the index of the next inbound
      message and the frames sent so far. */
  datatype LoopState = LoopState(data: SessionData, awaitingAck: bool, ackTimeout: Option<nat>, next: nat, sent: seq<Frame>)

  /** The deadline is armed, with the fixed timeout, exactly while an acknowledgement is awaited. */
  predicate TimerConsistent(st: LoopState) {
    (st.awaitingAck <==> st.ackTimeout.Some?) &&
    (st.ackTimeout.Some? ==> st.ackTimeout.value == HeartbeatTimeoutSeconds)
  }

  datatype StepResult = Continue(st: LoopState) | Exit(result: Outcome<WebSocketError>, st: LoopState)

  /** `handle_dispatch`'s decision: the session id of a READY dispatch with a string `session_id`. */
  function ReadySessionId(f: Frame): (r: Option<string>)
    ensures r.Some? ==> f.t == Some(ReadyEvent) && f.d.Some? && f.d.value.JObj? &&
                        "session_id" in f.d.value.fields && f.d.value.fields["session_id"] == JStr(r.value)
    ensures (f.t == Some(ReadyEvent) && f.d.Some? && f.d.value.JObj? &&
             "session_id" in f.d.value.fields && f.d.value.fields["session_id"].JStr?) ==> r.Some?
  {
    if f.t == Some(ReadyEvent) && f.d.Some? && f.d.value.JObj? then GetStr(f.d.value.fields, "session_id")
    else None
  }

  /** The InvalidSession branch as written: `update(None, None)`, meant to clear the session,
      then the error that makes `start` reconnect. */
  function InvalidSessionExitAsWritten(st: LoopState): (r: StepResult)
    ensures r.Exit? && r.result == Fail(Other("Invalid Session"))
  {
    Exit(Fail(Other("Invalid Session")), st.(data := Updated(st.data, None, None)))
  }

  /** The InvalidSession branch as intended: the session is cleared, so that the reconnect
      identifies afresh. */
  function InvalidSessionExit(st: LoopState): (r: StepResult)
    ensures r.Exit? && r.result == Fail(Other("Invalid Session"))
    ensures r.st == st.(data := Empty)
  {
    Exit(Fail(Other("Invalid Session")), st.(data := Empty))
  }

  /** One parsed text frame: record its sequence number, then act on its opcode. */
  function OnFrame(st: LoopState, f: Frame): StepResult {
    var st1 := if f.s.Some? then st.(data := Updated(st.data, None, f.s)) else st;
    match RouteOp(f.op)
    case Dispatch => Continue(st1.(data := Updated(st1.data, ReadySessionId(f), None)))
    case HeartbeatAck => Continue(st1.(awaitingAck := false, ackTimeout := None))
    case InvalidSession => InvalidSessionExit(st1)
    case Reconnect => Exit(Pass, st1)
    case Heartbeat => Continue(st1.(sent := st1.sent + [HeartbeatFrame(st1.data.lastSeq)]))
    case _ => Continue(st1)
  }

  /** One turn of the `select!` loop. A deadline that is not armed never fires. */
  function Step(st: LoopState, w: Wake, inbound: seq<WsMessage>): StepResult {
    match w
    case TickDue =>
      Continue(st.(sent := st.sent + [HeartbeatFrame(st.data.lastSeq)], awaitingAck := true,
                   ackTimeout := Some(HeartbeatTimeoutSeconds)))
    case DeadlineDue =>
      if st.ackTimeout.Some? && st.awaitingAck then Exit(Fail(HeartbeatTimeout), st) else Continue(st)
    case ReadReady =>
      if st.next >= |inbound| then Exit(Fail(ConnectionClosed), st)
      else
        var st1 := st.(next := st.next + 1);
        match inbound[st.next]
        case Close => Exit(Fail(ConnectionClosed), st1)
        case ReadError => Exit(Fail(ConnectionFailed), st1)
        case OtherMessage => Continue(st1)
        case Text(doc) =>
          var parsed := ParseText(doc);
          if parsed.None? then Continue(st1) else OnFrame(st1, parsed.value)
  }

  /** Where an attempt is when its schedule runs out: still running, ended with a result, or
      stopped by a panic that takes the whole gateway task down with it. */
  datatype RunResult =
    | Running(st: LoopState)
    | Ended(result: Outcome<WebSocketError>, st: LoopState)
    | Panicked(st: LoopState)

  function Run(st: LoopState, schedule: seq<Wake>, inbound: seq<WsMessage>): RunResult
    decreases |schedule|
  {
    if schedule == [] then Running(st)
    else
      match Step(st, schedule[0], inbound)
      case Continue(st1) => Run(st1, schedule[1..], inbound)
      case Exit(r, st1) => Ended(r, st1)
  }

  /** One connection attempt. */
  datatype Attempt = Attempt(connected: bool, inbound: seq<WsMessage>, schedule: seq<Wake>, jitter: Jitter)

  /** `connect_and_loop` on one attempt, from the session `data`. After the handshake,
      `interval_at` panics when Hello advertised an interval of 0 ms. */
  function Attempted(token: string, data: SessionData, a: Attempt): RunResult {
    if !a.connected then Ended(Fail(ConnectionFailed), LoopState(data, false, None, 0, []))
    else
      match HelloWait(a.inbound)
      case HelloFailed(e, k) => Ended(Fail(e), LoopState(data, false, None, k, []))
      case HelloReceived(interval, k) =>
        var st := LoopState(data, false, None, k, [HandshakeFrame(token, data)]);
        if interval == 0 then Panicked(st) else Run(st, a.schedule, a.inbound)
  }

  // ---------------------------------------------------------------------------------------
  // Properties of the loop

  /** Every parsed frame other than InvalidSession that carries a sequence number leaves exactly
      that number as `last_seq`, and the session id changes only for a READY dispatch; an
      InvalidSession frame leaves the session empty. */
  lemma OnFrameSession(st: LoopState, f: Frame)
    ensures RouteOp(f.op) == OpCode.InvalidSession ==> OnFrame(st, f).st.data == Empty
    ensures RouteOp(f.op) != OpCode.InvalidSession ==>
      OnFrame(st, f).st.data.lastSeq == if f.s.Some? then f.s else st.data.lastSeq
    ensures RouteOp(f.op) != OpCode.InvalidSession ==>
      OnFrame(st, f).st.data.sessionId ==
        if RouteOp(f.op) == Dispatch && ReadySessionId(f).Some? then ReadySessionId(f) else st.data.sessionId
  {
  }

  /** A Reconnect frame ends the attempt cleanly; an InvalidSession frame ends it with an error
      and a session that can no longer be resumed; no other frame ends it. */
  lemma OnFrameExits(st: LoopState, f: Frame)
    ensures RouteOp(f.op) == Reconnect ==> OnFrame(st, f).Exit? && OnFrame(st, f).result == Pass
    ensures RouteOp(f.op) == OpCode.InvalidSession ==>
      OnFrame(st, f).Exit? && OnFrame(st, f).result == Fail(Other("Invalid Session")) &&
      !IsResumable(OnFrame(st, f).st.data)
    ensures OnFrame(st, f).Exit? ==> RouteOp(f.op) in {Reconnect, OpCode.InvalidSession}
  {
  }

  /** A heartbeat requested by the server (op 1) is answered with the current sequence number,
      and the acknowledgement flag is left as it was. */
  lemma ServerHeartbeatAnswered(st: LoopState, f: Frame)
    requires RouteOp(f.op) == Heartbeat
    ensures OnFrame(st, f).Continue?
    ensures OnFrame(st, f).st.sent == st.sent + [HeartbeatFrame(OnFrame(st, f).st.data.lastSeq)]
    ensures OnFrame(st, f).st.awaitingAck == st.awaitingAck && OnFrame(st, f).st.ackTimeout == st.ackTimeout
  {
  }

  /** A tick sends a heartbeat and arms the fixed deadline. */
  lemma TickArmsDeadline(st: LoopState, inbound: seq<WsMessage>)
    ensures Step(st, TickDue, inbound).Continue?
    ensures Step(st, TickDue, inbound).st.awaitingAck
    ensures Step(st, TickDue, inbound).st.ackTimeout == Some(HeartbeatTimeoutSeconds)
    ensures Step(st, TickDue, inbound).st.sent == st.sent + [HeartbeatFrame(st.data.lastSeq)]
  {
  }

  /** The deadline ends the attempt with `HeartbeatTimeout` exactly when an acknowledgement is
      awaited; otherwise it changes nothing. */
  lemma DeadlineTimesOutIffAwaiting(st: LoopState, inbound: seq<WsMessage>)
    requires TimerConsistent(st)
    ensures Step(st, DeadlineDue, inbound).Exit? <==> st.awaitingAck
    ensures st.awaitingAck ==> Step(st, DeadlineDue, inbound) == Exit(Fail(HeartbeatTimeout), st)
    ensures !st.awaitingAck ==> Step(st, DeadlineDue, inbound) == Continue(st)
  {
  }

  /** The text frame that would be read next, if the next message is one that parses. */
  function NextFrame(st: LoopState, inbound: seq<WsMessage>): Option<Frame> {
    if st.next < |inbound| && inbound[st.next].Text? then ParseText(inbound[st.next].doc) else None
  }

  /** Only reading a HeartbeatACK clears `awaiting_ack` and disarms the deadline. */
  lemma OnlyAckClears(st: LoopState, w: Wake, inbound: seq<WsMessage>)
    requires st.awaitingAck
    ensures Step(st, w, inbound).Continue? && !Step(st, w, inbound).st.awaitingAck <==>
      w == ReadReady && NextFrame(st, inbound).Some? && RouteOp(NextFrame(st, inbound).value.op) == HeartbeatAck
    ensures w == ReadReady && NextFrame(st, inbound).Some? && RouteOp(NextFrame(st, inbound).value.op) == HeartbeatAck ==>
      Step(st, w, inbound).st.ackTimeout.None?
  {
  }

  /** One turn keeps the deadline armed exactly while an acknowledgement is awaited. */
  lemma StepKeepsTimer(st: LoopState, w: Wake, inbound: seq<WsMessage>)
    requires TimerConsistent(st)
    ensures TimerConsistent(Step(st, w, inbound).st)
  {
  }

  /** The whole loop keeps the deadline armed exactly while an acknowledgement is awaited. */
  lemma {:induction false} RunKeepsTimer(st: LoopState, schedule: seq<Wake>, inbound: seq<WsMessage>)
    requires TimerConsistent(st)
    ensures TimerConsistent(Run(st, schedule, inbound).st)
    decreases |schedule|
  {
    if schedule != [] {
      StepKeepsTimer(st, schedule[0], inbound);
      match Step(st, schedule[0], inbound)
      case Continue(st1) => RunKeepsTimer(st1, schedule[1..], inbound);
      case Exit(_, _) =>
    }
  }

  /** A heartbeat that is not acknowledged before the deadline ends the attempt. */
  lemma UnacknowledgedHeartbeatTimesOut(st: LoopState, inbound: seq<WsMessage>)
    ensures Run(st, [TickDue, DeadlineDue], inbound).Ended?
    ensures Run(st, [TickDue, DeadlineDue], inbound).result == Fail(HeartbeatTimeout)
  {
  }

  /** The loop only appends to the frames already sent, and what it appends are heartbeats. */
  lemma {:induction false} RunAppendsHeartbeats(st: LoopState, schedule: seq<Wake>, inbound: seq<WsMessage>)
    ensures |st.sent| <= |Run(st, schedule, inbound).st.sent|
    ensures Run(st, schedule, inbound).st.sent[..|st.sent|] == st.sent
    ensures forall j | |st.sent| <= j < |Run(st, schedule, inbound).st.sent| ::
      Run(st, schedule, inbound).st.sent[j].op == ToByte(Heartbeat)
    decreases |schedule|
  {
    if schedule != [] {
      match Step(st, schedule[0], inbound)
      case Continue(st1) =>
        assert |st.sent| <= |st1.sent| && st1.sent[..|st.sent|] == st.sent;
        assert forall j | |st.sent| <= j < |st1.sent| :: st1.sent[j].op == ToByte(Heartbeat);
        RunAppendsHeartbeats(st1, schedule[1..], inbound);
        var sent := Run(st, schedule, inbound).st.sent;
        assert sent == Run(st1, schedule[1..], inbound).st.sent;
        assert sent[..|st.sent|] == sent[..|st1.sent|][..|st.sent|];
      case Exit(_, _) =>
    }
  }

  /** Once Hello has arrived, the first frame an attempt sends is the Resume when the session it
      started from is resumable and the Identify otherwise; every later frame is a heartbeat. */
  lemma HandshakeComesFirst(token: string, data: SessionData, a: Attempt)
    requires a.connected && HelloWait(a.inbound).HelloReceived?
    ensures |Attempted(token, data, a).st.sent| >= 1
    ensures Attempted(token, data, a).st.sent[0] ==
      if IsResumable(data) then ResumeFrame(token, data.sessionId.value, data.lastSeq.value) else IdentifyFrame(token)
    ensures forall j | 1 <= j < |Attempted(token, data, a).st.sent| :: Attempted(token, data, a).st.sent[j].op == ToByte(Heartbeat)
  {
    var hello := HelloWait(a.inbound);
    var st := LoopState(data, false, None, hello.consumed, [HandshakeFrame(token, data)]);
    if hello.interval != 0 {
      RunAppendsHeartbeats(st, a.schedule, a.inbound);
    }
    assert Attempted(token, data, a).st.sent[..1] == [HandshakeFrame(token, data)];
  }

  /** An attempt that fails before Hello sends nothing. */
  lemma NoHelloNothingSent(token: string, data: SessionData, a: Attempt)
    requires !a.connected || HelloWait(a.inbound).HelloFailed?
    ensures Attempted(token, data, a).Ended? && Attempted(token, data, a).st.sent == []
    ensures Attempted(token, data, a).st.data == data
    ensures Attempted(token, data, a).result == Fail(if a.connected then HelloWait(a.inbound).err else ConnectionFailed)
  {
  }

  /** A text message that parses into a Dispatch frame carrying a sequence number. */
  predicate SequencedDispatch(m: WsMessage) {
    m.Text? && ParseText(m.doc).Some? && RouteOp(ParseText(m.doc).value.op) == Dispatch &&
    ParseText(m.doc).value.s.Some?
  }

  function Reads(n: nat): (ws: seq<Wake>)
    ensures |ws| == n && forall j | 0 <= j < n :: ws[j] == ReadReady
  {
    if n == 0 then [] else [ReadReady] + Reads(n - 1)
  }

  /** Reading a run of Dispatch frames keeps the loop running and leaves `last_seq` at the
      sequence number of the last of them, whatever order the numbers came in. */
  lemma {:induction false} DispatchRunTracksLastSeq(st: LoopState, n: nat, inbound: seq<WsMessage>)
    requires 0 < n && st.next + n <= |inbound|
    requires forall j | st.next <= j < st.next + n :: SequencedDispatch(inbound[j])
    ensures SequencedDispatch(inbound[st.next + n - 1])
    ensures Run(st, Reads(n), inbound).Running?
    ensures Run(st, Reads(n), inbound).st.next == st.next + n
    ensures Run(st, Reads(n), inbound).st.data.lastSeq == ParseText(inbound[st.next + n - 1].doc).value.s
    decreases n
  {
    var f := ParseText(inbound[st.next].doc).value;
    var st1 := Step(st, ReadReady, inbound).st;
    OnFrameSession(st.(next := st.next + 1), f);
    assert Step(st, ReadReady, inbound) == Continue(st1);
    assert st1.next == st.next + 1;
    assert Reads(n)[1..] == Reads(n - 1);
    if n > 1 {
      DispatchRunTracksLastSeq(st1, n - 1, inbound);
    }
  }

  /** As written, an InvalidSession keeps the session: `update(None, None)` leaves a resumable
      session as it was, so the next handshake resumes the same session instead of identifying. */
  lemma InvalidSessionStillResumes(token: string, awaitingAck: bool, ackTimeout: Option<nat>, next: nat, sent: seq<Frame>)
    ensures var st := LoopState(SessionData(Some("s"), Some(5)), awaitingAck, ackTimeout, next, sent);
            var r := InvalidSessionExitAsWritten(st);
            r.st.data == st.data && IsResumable(r.st.data) &&
            HandshakeFrame(token, r.st.data) == ResumeFrame(token, "s", 5)
  {
  }

  /** With the session cleared, the next attempt after an InvalidSession identifies afresh:
      the first frame the following attempt sends is an Identify. */
  lemma InvalidSessionThenIdentifies(token: string, st: LoopState, a: Attempt)
    requires a.connected && HelloWait(a.inbound).HelloReceived?
    ensures !IsResumable(InvalidSessionExit(st).st.data)
    ensures |Attempted(token, InvalidSessionExit(st).st.data, a).st.sent| >= 1
    ensures Attempted(token, InvalidSessionExit(st).st.data, a).st.sent[0] == IdentifyFrame(token)
  {
    HandshakeComesFirst(token, Empty, a);
  }

  /** The whole exchange: a resumable session, Hello, then an InvalidSession frame ends the
      attempt with the error and an empty session, after the attempt had resumed. */
  lemma InvalidSessionScenario(token: string)
    ensures var data := SessionData(Some("s"), Some(5));
            var hello := Text(Some(JObj(map["op" := JNum(10), "d" := JObj(map["heartbeat_interval" := JNum(41250)])])));
            var invalid := Text(Some(JObj(map["op" := JNum(9)])));
            Attempted(token, data, Attempt(true, [hello, invalid], [ReadReady], 800)) ==
              Ended(Fail(Other("Invalid Session")), LoopState(Empty, false, None, 2, [ResumeFrame(token, "s", 5)]))
  {
  }

  // ---------------------------------------------------------------------------------------
  // A zero heartbeat interval

  /** The main loop never panics: only the set-up of the heartbeat timer can. */
  lemma {:induction false} RunNeverPanics(st: LoopState, schedule: seq<Wake>, inbound: seq<WsMessage>)
    ensures !Run(st, schedule, inbound).Panicked?
    decreases |schedule|
  {
    if schedule != [] {
      match Step(st, schedule[0], inbound)
      case Continue(st1) => RunNeverPanics(st1, schedule[1..], inbound);
      case Exit(_, _) =>
    }
  }

  /** As written, a Hello that advertises 0 ms is accepted; the attempt sends its handshake
      and nothing more before `interval_at` panics, and the panic ends the gateway task: no
      later attempt runs and no reconnect delay is slept. */
  lemma ZeroIntervalStopsGateway(token: string, data: SessionData, count: nat, a: Attempt, rest: seq<Attempt>)
    requires a.connected && HelloWait(a.inbound).HelloReceived? && HelloWait(a.inbound).interval == 0
    ensures Attempted(token, data, a) ==
      Panicked(LoopState(data, false, None, HelloWait(a.inbound).consumed, [HandshakeFrame(token, data)]))
    ensures Supervise(token, data, count, [a] + rest) == Supervision(data, count, [])
  {
    assert ([a] + rest)[0] == a && ([a] + rest)[1..] == rest;
  }

  /** The intended handling of Hello: an interval of 0 ms is refused like a missing one, before
      the handshake, so that the attempt ends with an error instead of a panic. */
  function CheckedAttempted(token: string, data: SessionData, a: Attempt): (r: RunResult)
    ensures !r.Panicked?
    ensures a.connected && HelloWait(a.inbound).HelloReceived? && HelloWait(a.inbound).interval == 0 ==>
      r == Ended(Fail(MissingHeartbeatInterval), LoopState(data, false, None, HelloWait(a.inbound).consumed, []))
    ensures !(a.connected && HelloWait(a.inbound).HelloReceived? && HelloWait(a.inbound).interval == 0) ==>
      r == Attempted(token, data, a)
  {
    if a.connected && HelloWait(a.inbound).HelloReceived? && HelloWait(a.inbound).interval == 0 then
      Ended(Fail(MissingHeartbeatInterval), LoopState(data, false, None, HelloWait(a.inbound).consumed, []))
    else
      var r := Attempted(token, data, a);
      if a.connected && HelloWait(a.inbound).HelloReceived? then
        RunNeverPanics(LoopState(data, false, None, HelloWait(a.inbound).consumed, [HandshakeFrame(token, data)]),
                       a.schedule, a.inbound);
        r
      else r
  }

  /** With the check, a zero interval is an ordinary failure: the reconnect delay is slept and
      the attempts that follow run. */
  lemma CheckedZeroIntervalRetries(token: string, data: SessionData, count: nat, a: Attempt, rest: seq<Attempt>)
    requires a.connected && HelloWait(a.inbound).HelloReceived? && HelloWait(a.inbound).interval == 0
    ensures var b := ReconnectBackoff(count, a.jitter);
            var tail := Supervise(token, data, b.nextCount, rest);
            SuperviseAfter(token, count, CheckedAttempted(token, data, a), a.jitter, rest) ==
              Supervision(tail.data, tail.resumeCount, [b.delayMs] + tail.delays)
  {
  }

  // ---------------------------------------------------------------------------------------
  // The heartbeat timers in time

  /** `HEARTBEAT_TIMEOUT_SECONDS` in milliseconds. */
  const HeartbeatTimeoutMs: nat := HeartbeatTimeoutSeconds * 1000

  /** The tick branch as intended: a tick while an acknowledgement is already awaited sends
      its heartbeat but leaves the running deadline alone. Every other turn is `Step`. */
  function StepArmOnce(st: LoopState, w: Wake, inbound: seq<WsMessage>): StepResult {
    if w == TickDue && st.awaitingAck then Continue(st.(sent := st.sent + [HeartbeatFrame(st.data.lastSeq)]))
    else Step(st, w, inbound)
  }

  /** The main loop against a server that sends nothing after Hello and never acknowledges,
      in milliseconds since Hello: ticks fall at `nextTick`, `nextTick + interval`, ... and the
      deadline armed at time `armedAt` falls 7 s later. Each turn is whichever comes first; a
      tie goes to the tick (`select!` picks one at random). At most `ticks` ticks are followed.
      A tick re-arms the deadline as written, or only when no acknowledgement is awaited when
      `armOnce` holds. */
  function Silent(st: LoopState, armedAt: nat, nextTick: nat, interval: nat, ticks: nat, armOnce: bool): RunResult
    decreases ticks
  {
    if st.awaitingAck && st.ackTimeout.Some? && armedAt + HeartbeatTimeoutMs < nextTick then
      match Step(st, DeadlineDue, [])
      case Continue(st1) => Running(st1)
      case Exit(r, st1) => Ended(r, st1)
    else if ticks == 0 then Running(st)
    else
      var armed := if armOnce && st.awaitingAck then armedAt else nextTick;
      match if armOnce then StepArmOnce(st, TickDue, []) else Step(st, TickDue, [])
      case Continue(st1) => Silent(st1, armed, nextTick + interval, interval, ticks - 1, armOnce)
      case Exit(r, st1) => Ended(r, st1)
  }

  /** As written, every tick re-arms the deadline, so with an interval shorter than 7 s the
      next tick always comes before the deadline: the attempt never times out, however many
      heartbeats go unacknowledged. */
  lemma {:induction false} ShortIntervalNeverTimesOut(st: LoopState, armedAt: nat, nextTick: nat, interval: nat, ticks: nat)
    requires interval < HeartbeatTimeoutMs
    requires st.awaitingAck ==> nextTick <= armedAt + interval
    ensures Silent(st, armedAt, nextTick, interval, ticks, false).Running?
    decreases ticks
  {
    if ticks > 0 {
      var st1 := Step(st, TickDue, []).st;
      assert st1.awaitingAck;
      ShortIntervalNeverTimesOut(st1, nextTick, nextTick + interval, interval, ticks - 1);
    }
  }

  /** With the deadline armed once, an unacknowledged heartbeat times out 7 s after it was
      sent, whatever ticks fall in between. */
  lemma {:induction false} ArmOnceTimesOut(st: LoopState, armedAt: nat, nextTick: nat, interval: nat, ticks: nat)
    requires st.awaitingAck && st.ackTimeout.Some?
    requires armedAt + HeartbeatTimeoutMs < nextTick + ticks * interval
    ensures Silent(st, armedAt, nextTick, interval, ticks, true).Ended?
    ensures Silent(st, armedAt, nextTick, interval, ticks, true).result == Fail(HeartbeatTimeout)
    decreases ticks
  {
    if armedAt + HeartbeatTimeoutMs >= nextTick {
      assert ticks != 0;
      var st1 := StepArmOnce(st, TickDue, []).st;
      assert (ticks - 1) * interval + interval == ticks * interval;
      ArmOnceTimesOut(st1, armedAt, nextTick + interval, interval, ticks - 1);
    }
  }

  /** After Hello, as written: no unacknowledged heartbeat ever ends the attempt when Hello
      advertised less than 7 s, as in the 100 ms heartbeat-timeout test. */
  lemma HelloShortIntervalNeverTimesOut(st: LoopState, interval: nat, ticks: nat)
    requires 0 < interval < HeartbeatTimeoutMs && !st.awaitingAck
    ensures Silent(st, 0, interval, interval, ticks, false).Running?
  {
    ShortIntervalNeverTimesOut(st, 0, interval, interval, ticks);
  }

  /** After Hello, as intended: once the ticks span more than 7 s, the first unacknowledged
      heartbeat has timed out. */
  lemma HelloArmOnceTimesOut(st: LoopState, interval: nat, ticks: nat)
    requires 0 < interval && HeartbeatTimeoutMs < ticks * interval
    requires TimerConsistent(st) && !st.awaitingAck
    ensures Silent(st, 0, interval, interval, ticks, true).Ended?
    ensures Silent(st, 0, interval, interval, ticks, true).result == Fail(HeartbeatTimeout)
  {
    var st1 := StepArmOnce(st, TickDue, []).st;
    assert (ticks - 1) * interval + interval == ticks * interval;
    ArmOnceTimesOut(st1, interval, interval + interval, interval, ticks - 1);
  }

  // ---------------------------------------------------------------------------------------
  // Reconnect policy

  /** The sleep before the next attempt and the new `resume_count`. */
  datatype Backoff = Backoff(delayMs: nat, nextCount: nat)

  /** `handle_reconnect_delay`: below three consecutive failures, wait the jitter times the
      failure count (capped at 5 s) and count one more; at three, wait 30 s and start over. */
  function ReconnectBackoff(count: nat, jitter: Jitter): (b: Backoff)
    ensures count >= MaxResumeRetries ==> b == Backoff(ResumeWaitSeconds * 1000, 0)
    ensures count < MaxResumeRetries ==>
      b.nextCount == count + 1 &&
      JitterMinMs * (count + 1) <= b.delayMs <= JitterMaxMs * (count + 1) &&
      b.delayMs <= ReconnectMaxDelayMs
    ensures count <= MaxResumeRetries ==> b.nextCount <= MaxResumeRetries
  {
    if count >= MaxResumeRetries then Backoff(ResumeWaitSeconds * 1000, 0)
    else Backoff(Min(jitter * (count + 1), ReconnectMaxDelayMs), count + 1)
  }

  /** The 5 s cap never applies: with at most three retries the largest delay is 3 * 1200 ms. */
  lemma BackoffCapUnreached(count: nat, jitter: Jitter)
    requires count < MaxResumeRetries
    ensures ReconnectBackoff(count, jitter).delayMs == jitter * (count + 1)
  {
  }

  /** Three consecutive failures sleep for growing delays, the fourth pauses 30 s and the
      count starts over. */
  lemma ConsecutiveFailures(j1: Jitter, j2: Jitter, j3: Jitter, j4: Jitter)
    ensures var b1 := ReconnectBackoff(0, j1);
            var b2 := ReconnectBackoff(b1.nextCount, j2);
            var b3 := ReconnectBackoff(b2.nextCount, j3);
            var b4 := ReconnectBackoff(b3.nextCount, j4);
            b1.delayMs < b2.delayMs <= b3.delayMs && b4 == Backoff(30000, 0)
  {
  }

  // ---------------------------------------------------------------------------------------
  // The manager

  /** `start`, over a finite list of attempts: the final session, `resume_count` and the
      delays slept between attempts. */
  datatype Supervision = Supervision(data: SessionData, resumeCount: nat, delays: seq<nat>)

  function Supervise(token: string, data: SessionData, count: nat, attempts: seq<Attempt>): Supervision
    decreases |attempts|, 0
  {
    if attempts == [] then Supervision(data, count, [])
    else SuperviseAfter(token, count, Attempted(token, data, attempts[0]), attempts[0].jitter, attempts[1..])
  }

  /** What `start` does after an attempt has ended as `r`, with the attempts still to come. */
  function SuperviseAfter(token: string, count: nat, r: RunResult, jitter: Jitter, rest: seq<Attempt>): Supervision
    decreases |rest|, 1
  {
    match r
    case Running(st) => Supervision(st.data, count, [])
    case Panicked(st) => Supervision(st.data, count, [])
    case Ended(Pass, st) => Supervise(token, st.data, 0, rest)
    case Ended(Fail(_), st) =>
      var b := ReconnectBackoff(count, jitter);
      var tail := Supervise(token, st.data, b.nextCount, rest);
      Supervision(tail.data, tail.resumeCount, [b.delayMs] + tail.delays)
  }

  /** Over any run of attempts `resume_count` stays within 0..3 and every delay slept is either
      the 30 s pause or between 800 ms and 3.6 s. */
  lemma {:induction false} SuperviseWithinPolicy(token: string, data: SessionData, count: nat, attempts: seq<Attempt>)
    requires count <= MaxResumeRetries
    ensures Supervise(token, data, count, attempts).resumeCount <= MaxResumeRetries
    ensures forall d | d in Supervise(token, data, count, attempts).delays ::
      d == ResumeWaitSeconds * 1000 || JitterMinMs <= d <= MaxResumeRetries * JitterMaxMs
    decreases |attempts|
  {
    if attempts != [] {
      match Attempted(token, data, attempts[0])
      case Running(st) =>
      case Panicked(st) =>
      case Ended(Pass, st) => SuperviseWithinPolicy(token, st.data, 0, attempts[1..]);
      case Ended(Fail(_), st) =>
        var b := ReconnectBackoff(count, attempts[0].jitter);
        if count < MaxResumeRetries {
          assert JitterMaxMs * (count + 1) <= MaxResumeRetries * JitterMaxMs;
        }
        SuperviseWithinPolicy(token, st.data, b.nextCount, attempts[1..]);
    }
  }

  /** `WebSocketManager`: the endpoint, the token, the shared session and the count of
      consecutive failed attempts. */
  class WebSocketManager {
    const wssUrl: string
    const token: string
    const state: SessionState
    var resumeCount: nat

    /** `WebSocketManager::new`: a fresh, empty session and no failures yet. */
    constructor (wssUrl: string, token: string)
      ensures this.wssUrl == wssUrl && this.token == token
      ensures fresh(state) && state.data == Empty && resumeCount == 0
    {
      this.wssUrl := wssUrl;
      this.token := token;
      state := new SessionState();
      resumeCount := 0;
    }

    /** `handle_reconnect_delay`: returns the milliseconds slept. */
    method HandleReconnectDelay(jitter: Jitter) returns (delayMs: nat)
      modifies this
      ensures Backoff(delayMs, resumeCount) == ReconnectBackoff(old(resumeCount), jitter)
    {
      if resumeCount >= MaxResumeRetries {
        delayMs := ResumeWaitSeconds * 1000;
        resumeCount := 0;
      } else {
        var finalDelay := Min(jitter * (resumeCount + 1), ReconnectMaxDelayMs);
        delayMs := finalDelay;
        resumeCount := resumeCount + 1;
      }
    }

    /** `send_heartbeat`'s frame: the current last sequence number. */
    method HeartbeatToSend() returns (f: Frame)
      ensures f == HeartbeatFrame(state.data.lastSeq)
    {
      var lastSeq := state.GetLastSeq();
      f := HeartbeatFrame(lastSeq);
    }

    /** `handle_dispatch`: a READY dispatch records its session id; it never fails. */
    method HandleDispatch(f: Frame) returns (r: Outcome<WebSocketError>)
      modifies state
      ensures state.data == Updated(old(state.data), ReadySessionId(f), None)
      ensures r == Pass
    {
      if f.t.None? {
        return Pass;
      }
      if f.t.value == ReadyEvent && f.d.Some? && f.d.value.JObj? {
        var sessionId := GetStr(f.d.value.fields, "session_id");
        if sessionId.Some? {
          var _ := state.Update(sessionId, None);
        }
      }
      r := Pass;
    }

    /** The handling of one parsed text frame inside the main loop of `connect_and_loop`:
        record its sequence number, then act on its opcode. */
    method ReceiveFrame(f: Frame, awaitingAck: bool, ackTimeout: Option<nat>, next: nat, sent: seq<Frame>)
      returns (res: StepResult)
      modifies state
      ensures res == OnFrame(LoopState(old(state.data), awaitingAck, ackTimeout, next, sent), f)
      ensures state.data == res.st.data
    {
      if f.s.Some? {
        var _ := state.Update(None, f.s);
      }
      match RouteOp(f.op) {
        case Dispatch =>
          var _ := HandleDispatch(f);
        case HeartbeatAck =>
          return Continue(LoopState(state.data, false, None, next, sent));
        case InvalidSession =>
          state.Clear();
          return Exit(Fail(Other("Invalid Session")), LoopState(state.data, awaitingAck, ackTimeout, next, sent));
        case Reconnect =>
          return Exit(Pass, LoopState(state.data, awaitingAck, ackTimeout, next, sent));
        case Heartbeat =>
          var hb := HeartbeatToSend();
          return Continue(LoopState(state.data, awaitingAck, ackTimeout, next, sent + [hb]));
        case _ =>
      }
      res := Continue(LoopState(state.data, awaitingAck, ackTimeout, next, sent));
    }

    /** One turn of the `select!` in the main loop of `connect_and_loop`: the heartbeat tick,
        the acknowledgement deadline, or the next inbound message. */
    method Turn(w: Wake, inbound: seq<WsMessage>, awaitingAck: bool, ackTimeout: Option<nat>, next: nat, sent: seq<Frame>)
      returns (res: StepResult)
      modifies state
      ensures res == Step(LoopState(old(state.data), awaitingAck, ackTimeout, next, sent), w, inbound)
      ensures state.data == res.st.data
    {
      match w {
        case TickDue =>
          var hb := HeartbeatToSend();
          return Continue(LoopState(state.data, true, Some(HeartbeatTimeoutSeconds), next, sent + [hb]));
        case DeadlineDue =>
          if ackTimeout.Some? && awaitingAck {
            return Exit(Fail(HeartbeatTimeout), LoopState(state.data, awaitingAck, ackTimeout, next, sent));
          }
        case ReadReady =>
          if next >= |inbound| {
            return Exit(Fail(ConnectionClosed), LoopState(state.data, awaitingAck, ackTimeout, next, sent));
          }
          var msg := inbound[next];
          match msg {
            case Close =>
              return Exit(Fail(ConnectionClosed), LoopState(state.data, awaitingAck, ackTimeout, next + 1, sent));
            case ReadError =>
              return Exit(Fail(ConnectionFailed), LoopState(state.data, awaitingAck, ackTimeout, next + 1, sent));
            case OtherMessage =>
            case Text(doc) =>
              var event := ParseText(doc);
              if event.Some? {
                res := ReceiveFrame(event.value, awaitingAck, ackTimeout, next + 1, sent);
                return;
              }
          }
          return Continue(LoopState(state.data, awaitingAck, ackTimeout, next + 1, sent));
      }
      res := Continue(LoopState(state.data, awaitingAck, ackTimeout, next, sent));
    }

    /** `connect_and_loop` on one attempt. */
    method ConnectAndLoop(a: Attempt) returns (r: RunResult)
      modifies state
      ensures r == Attempted(token, old(state.data), a)
      ensures state.data == r.st.data
    {
      if !a.connected {
        return Ended(Fail(ConnectionFailed), LoopState(state.data, false, None, 0, []));
      }
      var hello := AwaitHello(a.inbound);
      if hello.HelloFailed? {
        return Ended(Fail(hello.err), LoopState(state.data, false, None, hello.consumed, []));
      }
      var sessionId := state.GetSessionId();
      var lastSeq := state.GetLastSeq();
      var sent: seq<Frame>;
      if sessionId.Some? && lastSeq.Some? {
        sent := [ResumeFrame(token, sessionId.value, lastSeq.value)];
      } else {
        sent := [IdentifyFrame(token)];
      }
      if hello.interval == 0 {
        return Panicked(LoopState(state.data, false, None, hello.consumed, sent));
      }
      var awaitingAck := false;
      var ackTimeout: Option<nat> := None;
      var next := hello.consumed;
      ghost var start := LoopState(state.data, awaitingAck, ackTimeout, next, sent);
      var i := 0;
      while i < |a.schedule|
        invariant 0 <= i <= |a.schedule|
        invariant Run(LoopState(state.data, awaitingAck, ackTimeout, next, sent), a.schedule[i..], a.inbound)
               == Run(start, a.schedule, a.inbound)
      {
        assert a.schedule[i..][0] == a.schedule[i];
        assert a.schedule[i..][1..] == a.schedule[i + 1..];
        var res := Turn(a.schedule[i], a.inbound, awaitingAck, ackTimeout, next, sent);
        if res.Exit? {
          return Ended(res.result, res.st);
        }
        awaitingAck, ackTimeout, next, sent := res.st.awaitingAck, res.st.ackTimeout, res.st.next, res.st.sent;
        i := i + 1;
      }
      r := Running(LoopState(state.data, awaitingAck, ackTimeout, next, sent));
    }

    /** `start`: run attempts one after another; a clean end (the server asked to reconnect)
        resets `resume_count`, every error sleeps by `handle_reconnect_delay`. Stops for good
        when an attempt panics, and when an attempt's schedule runs out while it is still
        connected. Returns the delays slept. */
    method Start(attempts: seq<Attempt>) returns (delays: seq<nat>)
      modifies this, state
      ensures Supervision(state.data, resumeCount, delays) == Supervise(token, old(state.data), old(resumeCount), attempts)
    {
      delays := [];
      var i := 0;
      while i < |attempts|
        invariant 0 <= i <= |attempts|
        invariant var rest := Supervise(token, state.data, resumeCount, attempts[i..]);
                  Supervise(token, old(state.data), old(resumeCount), attempts) ==
                  Supervision(rest.data, rest.resumeCount, delays + rest.delays)
      {
        ghost var count := resumeCount;
        assert attempts[i..][0] == attempts[i];
        assert attempts[i..][1..] == attempts[i + 1..];
        var r := ConnectAndLoop(attempts[i]);
        assert Supervise(token, old(state.data), old(resumeCount), attempts) ==
               var rest := SuperviseAfter(token, count, r, attempts[i].jitter, attempts[i + 1..]);
               Supervision(rest.data, rest.resumeCount, delays + rest.delays);
        match r {
          case Running(_) =>
            return;
          case Panicked(_) =>
            return;
          case Ended(Pass, _) =>
            resumeCount := 0;
          case Ended(Fail(_), _) =>
            var d := HandleReconnectDelay(attempts[i].jitter);
            delays := delays + [d];
        }
        i := i + 1;
      }
    }
  }
}
