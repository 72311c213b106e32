/** The resumable session of the gateway connection (src/services/websocket/state.rs). */
module State {
  import opened Common
  import opened Errors

  /** `SessionData`: the session id from READY and the last sequence number seen. */
  datatype SessionData = SessionData(sessionId: Option<string>, lastSeq: Option<u64>)

  /** `SessionData::default()`. */
  const Empty: SessionData := SessionData(None, None)

  /** A resume can be attempted only when both the session id and a sequence number are known. */
  predicate IsResumable(data: SessionData) {
    data.sessionId.Some? && data.lastSeq.Some?
  }

  /** What `SessionState::update` leaves in the session: each field is overwritten by a `Some`
      argument and kept otherwise. The guard `data.x != x` in the source only skips writing a
      value that is already there. */
  function Updated(data: SessionData, sessionId: Option<string>, lastSeq: Option<u64>): (r: SessionData)
    ensures sessionId.Some? ==> r.sessionId == sessionId
    ensures sessionId.None? ==> r.sessionId == data.sessionId
    ensures lastSeq.Some? ==> r.lastSeq == lastSeq
    ensures lastSeq.None? ==> r.lastSeq == data.lastSeq
  {
    var sid := if sessionId.Some? && data.sessionId != sessionId then sessionId else data.sessionId;
    var last := if lastSeq.Some? && data.lastSeq != lastSeq then lastSeq else data.lastSeq;
    SessionData(sid, last)
  }

  /** `update(None, None)` changes nothing. */
  lemma UpdateNoneNone(data: SessionData)
    ensures Updated(data, None, None) == data
  {
  }

  /** Applying the same update twice is the same as applying it once. */
  lemma UpdatedIdempotent(data: SessionData, sessionId: Option<string>, lastSeq: Option<u64>)
    ensures Updated(Updated(data, sessionId, lastSeq), sessionId, lastSeq) == Updated(data, sessionId, lastSeq)
  {
  }

  /** The sequence number is not kept monotone: a smaller value replaces a larger one. */
  lemma LastSeqNotMonotone()
    ensures Updated(SessionData(None, Some(5)), None, Some(3)).lastSeq == Some(3)
  {
  }

  /** `SessionState`: the session record behind its lock, written by one task. */
  class SessionState {
    var data: SessionData

    /** `SessionState::new()`: no session id and no sequence number. */
    constructor ()
      ensures data == Empty
    {
      data := Empty;
    }

    /** `update`: overwrite each field given as `Some`; it never fails. */
    method Update(sessionId: Option<string>, lastSeq: Option<u64>) returns (r: Outcome<WebSocketError>)
      modifies this
      ensures data == Updated(old(data), sessionId, lastSeq)
      ensures r == Pass
    {
      if sessionId.Some? && data.sessionId != sessionId {
        data := data.(sessionId := sessionId);
      }
      if lastSeq.Some? && data.lastSeq != lastSeq {
        data := data.(lastSeq := lastSeq);
      }
      r := Pass;
    }

    /** `get_session_id` */
    method GetSessionId() returns (r: Option<string>)
      ensures r == data.sessionId
    {
      r := data.sessionId;
    }

    /** `get_last_seq` */
    method GetLastSeq() returns (r: Option<u64>)
      ensures r == data.lastSeq
    {
      r := data.lastSeq;
    }

    /** What the InvalidSession handler evidently means `update(None, None)` to do: forget the
        session so that the next handshake is an Identify. */
    method Clear()
      modifies this
      ensures data == Empty && !IsResumable(data)
    {
      data := Empty;
    }
  }
}
