/** The messages exchanged between the chat clients and the signaling
    relay. Descriptions and network candidates are opaque strings: the relay
    forwards them and the client hands them to the peer transport. */
module Signaling {
  import opened Wrappers

  /** JavaScript truthiness of an optional string: present and non-empty. */
  predicate Truthy(s: Option<string>)
  {
    s.Some? && s.value != ""
  }

  /** A connection id assigned by the relay on connect. */
  type SocketId = string

  /** The content of an offer or answer session description. */
  type Sdp = string

  /** A trickled network (ICE) candidate. */
  type Candidate = string

  /** The `signal` field of an envelope; offer, answer and candidate are
      independent optional fields, so one payload may carry several. */
  datatype SignalPayload = SignalPayload(offer: Option<Sdp>, answer: Option<Sdp>, candidate: Option<Candidate>)

  function OfferPayload(sdp: Sdp): SignalPayload { SignalPayload(Some(sdp), None, None) }
  function AnswerPayload(sdp: Sdp): SignalPayload { SignalPayload(None, Some(sdp), None) }
  function CandidatePayload(c: Candidate): SignalPayload { SignalPayload(None, None, Some(c)) }

  /** An envelope as the relay delivers it: the sender's id, the sender's
      recorded display name and the payload. */
  datatype SignalData = SignalData(sender: SocketId, senderName: Option<string>, signal: SignalPayload)

  /** The `join-room` argument: a bare room id, or an object with the room
      id and the user's name. */
  datatype JoinValue =
    | RoomName(room: string)
    | RoomObject(roomID: string, username: Option<string>)

  /** The `signal` argument a client emits: the target id, an optional
      target name (which the relay ignores) and the payload. */
  datatype SignalRequest = SignalRequest(target: SocketId, targetName: Option<string>, signal: SignalPayload)

  /** An event the relay emits to clients. */
  datatype ServerEvent =
    | UserConnected(socketId: SocketId, username: Option<string>)
    | SignalEvent(data: SignalData)
    | UserDisconnect(userId: SocketId)

  /** An event a client emits to the relay. */
  datatype ClientEmit =
    | JoinRoomEmit(value: JoinValue)
    | SignalEmit(request: SignalRequest)
}
