/** kis/ws/errors.go and the verdicts of kis/ws/reader.go. */
module Protocol {
  import opened Prelude
  import opened Text

  /** The fields of a system message; JSON decoding itself is not modelled. */
  datatype AckMessage = AckMessage(tr: Bytes, rtCd: Bytes, msgCd: Bytes, msg1: Bytes, iv: Bytes, key: Bytes)

  const MSG_SESSION_OCCUPIED: Bytes := [79, 80, 83, 80, 56, 57, 57, 54]  // "OPSP8996"
  const MSG_APPROVAL_REJECTED: Bytes := [79, 80, 83, 80, 48, 48, 49, 49] // "OPSP0011"
  const RT_OK: Bytes := [48]                                             // "0"
  const TR_PINGPONG: Bytes := [80, 73, 78, 71, 80, 79, 78, 71]           // "PINGPONG"

  const REISSUABLE_CODES: set<Bytes> := {MSG_APPROVAL_REJECTED}

  predicate Reissuable(msgCd: Bytes) {
    msgCd in REISSUABLE_CODES
  }

  /** Everything a request or the read loop can fail with. */
  datatype Fault =
    | SessionOccupied
    | ApprovalRejected(code: Bytes)
    | SubscribeError(tr: Bytes, rtCd: Bytes, msgCd: Bytes, msg1: Bytes)
    | ConnClosed
    | Broken    // an error of the transport
    | Cancelled // the caller's context ended

  /** nil, or the reason of a refusal. */
  type Verdict = Option<Fault>

  function ClassifyAck(tr: Bytes, ack: AckMessage): Verdict {
    if Reissuable(ack.msgCd) then Some(ApprovalRejected(ack.msgCd))
    else if ack.msgCd == MSG_SESSION_OCCUPIED then Some(SessionOccupied)
    else if ack.rtCd != RT_OK then Some(SubscribeError(tr, ack.rtCd, ack.msgCd, ack.msg1))
    else None
  }

  /** A verdict that makes the socket unusable. */
  predicate Fatal(v: Verdict) {
    v.Some? && (v.value.SessionOccupied? || v.value.ApprovalRejected?)
  }

  /**
   * The vocabulary is closed: a verdict is fatal exactly for the two named codes, an occupied
   * session is never reported as reissuable, and only rt_cd "0" is acceptance.
   */
  lemma VerdictTable(tr: Bytes, ack: AckMessage)
    ensures var v := ClassifyAck(tr, ack);
      && (v == Some(SessionOccupied) <==> ack.msgCd == MSG_SESSION_OCCUPIED)
      && (v == Some(ApprovalRejected(MSG_APPROVAL_REJECTED)) <==> ack.msgCd == MSG_APPROVAL_REJECTED)
      && (Fatal(v) <==> ack.msgCd in {MSG_SESSION_OCCUPIED, MSG_APPROVAL_REJECTED})
      && (v == None <==> ack.rtCd == RT_OK && !Fatal(v))
      && (v.Some? ==> (v.value.SessionOccupied? || v.value.SubscribeError?
                       || v.value == ApprovalRejected(MSG_APPROVAL_REJECTED)))
  {
    assert MSG_SESSION_OCCUPIED[4] != MSG_APPROVAL_REJECTED[4];
  }
}
