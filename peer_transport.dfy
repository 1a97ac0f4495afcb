/** The browser's peer transport, seen only through the operations the chat
    client calls: an RTCPeerConnection as a value (signaling state, current
    and pending descriptions, applied candidates, opened channel labels),
    and an RTCDataChannel as an object whose ready state the browser
    changes. The rules for the signaling state follow the offer/answer
    state machine of the WebRTC specification, restricted to offers and
    answers (no provisional answers). */
module PeerTransport {
  import opened Wrappers
  import opened Signaling

  datatype SignalingState = Stable | HaveLocalOffer | HaveRemoteOffer

  /** `iceConnectionState`. */
  datatype IceState = IceNew | IceChecking | IceConnected | IceCompleted | IceDisconnected | IceFailed | IceClosed

  /** An RTCPeerConnection. A description set while an offer is open is
      pending; it becomes current when the exchange returns to stable. */
  datatype Pc = Pc(
    signaling: SignalingState,
    currentLocal: Option<Sdp>, pendingLocal: Option<Sdp>,
    currentRemote: Option<Sdp>, pendingRemote: Option<Sdp>,
    applied: seq<Candidate>,
    channels: seq<string>)

  /** A freshly constructed connection. */
  const NewPc: Pc := Pc(Stable, None, None, None, None, [], [])

  /** Pending descriptions exist exactly in the matching non-stable state. */
  ghost predicate WellFormed(pc: Pc)
  {
    && (pc.signaling == HaveLocalOffer <==> pc.pendingLocal.Some?)
    && (pc.signaling == HaveRemoteOffer <==> pc.pendingRemote.Some?)
  }

  /** `pc.remoteDescription`: the pending one if any, else the current one. */
  function RemoteDescription(pc: Pc): Option<Sdp>
  {
    if pc.pendingRemote.Some? then pc.pendingRemote else pc.currentRemote
  }

  /** `pc.localDescription`. */
  function LocalDescription(pc: Pc): Option<Sdp>
  {
    if pc.pendingLocal.Some? then pc.pendingLocal else pc.currentLocal
  }

  /** The settled value of a transport promise: fulfilled, or rejected
      (InvalidStateError, OperationError). */
  datatype Outcome<T> = Ok(value: T) | Rejected

  /** `setLocalDescription(offer)`: allowed in stable and have-local-offer. */
  function SetLocalOffer(pc: Pc, sdp: Sdp): (r: Outcome<Pc>)
    ensures r.Ok? <==> pc.signaling != HaveRemoteOffer
    ensures r.Ok? ==> r.value.signaling == HaveLocalOffer && LocalDescription(r.value) == Some(sdp)
    ensures r.Ok? ==> RemoteDescription(r.value) == RemoteDescription(pc) && r.value.applied == pc.applied
  {
    if pc.signaling == HaveRemoteOffer then Rejected
    else Ok(pc.(signaling := HaveLocalOffer, pendingLocal := Some(sdp)))
  }

  /** `setRemoteDescription(offer)`: allowed in stable and have-remote-offer. */
  function SetRemoteOffer(pc: Pc, sdp: Sdp): (r: Outcome<Pc>)
    ensures r.Ok? <==> pc.signaling != HaveLocalOffer
    ensures r.Ok? ==> r.value.signaling == HaveRemoteOffer && RemoteDescription(r.value) == Some(sdp)
    ensures r.Ok? ==> r.value.applied == pc.applied
  {
    if pc.signaling == HaveLocalOffer then Rejected
    else Ok(pc.(signaling := HaveRemoteOffer, pendingRemote := Some(sdp)))
  }

  /** `setLocalDescription(answer)`: only in have-remote-offer; the exchange
      completes and both descriptions become current. */
  function SetLocalAnswer(pc: Pc, sdp: Sdp): (r: Outcome<Pc>)
    ensures r.Ok? <==> pc.signaling == HaveRemoteOffer
    ensures r.Ok? ==> r.value.signaling == Stable && LocalDescription(r.value) == Some(sdp)
    ensures r.Ok? && WellFormed(pc) ==> RemoteDescription(r.value) == RemoteDescription(pc)
    ensures r.Ok? ==> r.value.applied == pc.applied
  {
    if pc.signaling != HaveRemoteOffer then Rejected
    else Ok(pc.(signaling := Stable, currentLocal := Some(sdp), pendingLocal := None,
                currentRemote := pc.pendingRemote, pendingRemote := None))
  }

  /** `setRemoteDescription(answer)`: only in have-local-offer; the exchange
      completes and both descriptions become current. */
  function SetRemoteAnswer(pc: Pc, sdp: Sdp): (r: Outcome<Pc>)
    ensures r.Ok? <==> pc.signaling == HaveLocalOffer
    ensures r.Ok? ==> r.value.signaling == Stable && RemoteDescription(r.value) == Some(sdp)
    ensures r.Ok? && WellFormed(pc) ==> LocalDescription(r.value) == LocalDescription(pc)
    ensures r.Ok? ==> r.value.applied == pc.applied
  {
    if pc.signaling != HaveLocalOffer then Rejected
    else Ok(pc.(signaling := Stable, currentRemote := Some(sdp), pendingRemote := None,
                currentLocal := pc.pendingLocal, pendingLocal := None))
  }

  /** `setLocalDescription({type: "rollback"})`: back to stable, discarding
      the pending offer; rejected in stable. */
  function Rollback(pc: Pc): (r: Outcome<Pc>)
    ensures r.Ok? <==> pc.signaling != Stable
    ensures r.Ok? ==> r.value.signaling == Stable && r.value.applied == pc.applied
  {
    match pc.signaling
    case Stable => Rejected
    case HaveLocalOffer => Ok(pc.(signaling := Stable, pendingLocal := None))
    case HaveRemoteOffer => Ok(pc.(signaling := Stable, pendingRemote := None))
  }

  /** `addIceCandidate(c)`: rejected without a remote description, or when
      the browser refuses this candidate (one of `refused`); otherwise the
      candidate joins the applied ones. */
  function AddCandidate(pc: Pc, c: Candidate, refused: set<Candidate>): (r: Outcome<Pc>)
    ensures r.Ok? <==> RemoteDescription(pc).Some? && c !in refused
    ensures r.Ok? ==> r.value == pc.(applied := pc.applied + [c])
  {
    if RemoteDescription(pc).None? || c in refused then Rejected
    else Ok(pc.(applied := pc.applied + [c]))
  }

  /** `createDataChannel(label)`. */
  function CreateDataChannel(pc: Pc, name: string): Pc
  {
    pc.(channels := pc.channels + [name])
  }

  // ---------------------------------------------------------------------
  // Properties of the operations.

  /** Every operation keeps a connection well formed. */
  lemma OperationsKeepWellFormed(pc: Pc, sdp: Sdp, c: Candidate, refused: set<Candidate>)
    requires WellFormed(pc)
    ensures SetLocalOffer(pc, sdp).Ok? ==> WellFormed(SetLocalOffer(pc, sdp).value)
    ensures SetRemoteOffer(pc, sdp).Ok? ==> WellFormed(SetRemoteOffer(pc, sdp).value)
    ensures SetLocalAnswer(pc, sdp).Ok? ==> WellFormed(SetLocalAnswer(pc, sdp).value)
    ensures SetRemoteAnswer(pc, sdp).Ok? ==> WellFormed(SetRemoteAnswer(pc, sdp).value)
    ensures Rollback(pc).Ok? ==> WellFormed(Rollback(pc).value)
    ensures AddCandidate(pc, c, refused).Ok? ==> WellFormed(AddCandidate(pc, c, refused).value)
    ensures WellFormed(CreateDataChannel(pc, sdp))
  {
  }

  /** Rolling back an offer just set on a stable connection, local or
      remote, restores the connection exactly. */
  lemma RollbackUndoesOffer(pc: Pc, sdp: Sdp)
    requires WellFormed(pc) && pc.signaling == Stable
    ensures Rollback(SetLocalOffer(pc, sdp).value) == Ok(pc)
    ensures Rollback(SetRemoteOffer(pc, sdp).value) == Ok(pc)
  {
  }

  /** A full exchange started locally: after our offer and their answer the
      connection is stable with our offer as local and their answer as
      remote description; started remotely, the roles swap. */
  lemma OfferAnswerExchange(pc: Pc, offer: Sdp, answer: Sdp)
    requires WellFormed(pc) && pc.signaling == Stable
    ensures var r := SetRemoteAnswer(SetLocalOffer(pc, offer).value, answer);
      r.Ok? && r.value.signaling == Stable && LocalDescription(r.value) == Some(offer) && RemoteDescription(r.value) == Some(answer)
    ensures var r := SetLocalAnswer(SetRemoteOffer(pc, offer).value, answer);
      r.Ok? && r.value.signaling == Stable && RemoteDescription(r.value) == Some(offer) && LocalDescription(r.value) == Some(answer)
  {
  }

  /** What the chat channel carries: `{type: "chat", msg, ts}`. */
  datatype ChatPayload = ChatPayload(msg: string, ts: int)

  datatype ReadyState = Connecting | Open | Closing | Closed

  /** The identity of an RTCDataChannel object: its label (`name`) and a serial
      number telling apart channels with the same label. */
  datatype Channel = Channel(name: string, serial: nat)

  /** An RTCDataChannel: its identity (and so its label) is fixed, its ready
      state is the browser's, and `sent` records every payload passed to
      `send`. */
  class DataChannel {
    const id: Channel
    var readyState: ReadyState
    var sent: seq<ChatPayload>

    constructor (id: Channel)
      ensures this.id == id && readyState == Connecting && sent == []
    {
      this.id := id;
      readyState := Connecting;
      sent := [];
    }

    method Send(p: ChatPayload)
      modifies this
      ensures sent == old(sent) + [p] && readyState == old(readyState)
    {
      sent := sent + [p];
    }

    /** The browser moves the channel to another ready state (it opens,
        starts closing, closes). */
    method Transition(st: ReadyState)
      modifies this
      ensures readyState == st && sent == old(sent)
    {
      readyState := st;
    }
  }
}
