/** The per-peer negotiation engine of the chat client, as a state and one
    function per handler. The session keeps one record per remote id spread
    over several keyed maps (peer connection, candidate queue, making-offer
    flag, restart attempt counter, restart-in-flight flag, chat and file
    channel registries); every handler, including the asynchronous ones, is
    one atomic step. What the browser decides (the offer and answer it
    creates, the candidates it refuses) comes in as a `Browser` value; a
    pending `setTimeout` is a `Timer` in the state, fired by `FireTimer`. */
module Negotiation {
  import opened Wrappers
  import opened JsString
  import opened Signaling
  import opened PeerTransport

  type PeerId = SocketId

  /** A pending ICE-restart timeout for one peer. */
  datatype Timer = Timer(peer: PeerId, delay: nat)

  /** The warnings and errors the client writes to the console. */
  datatype LogEntry =
    | SocketMissing
    | SignalingError(peer: PeerId)
    | CandidateFailed(peer: PeerId, candidate: Candidate)
    | OfferFailed(peer: PeerId)
    | RestartLimit(peer: PeerId)
    | RestartFailed(peer: PeerId)

  /** A text entry of the message list. */
  datatype ChatMessage = TextMessage(id: string, fromID: SocketId, fromName: string, text: string, ts: int)

  /** What the browser yields during one handler: the description that
      `createOffer` or `createAnswer` produces, and the candidates that
      `addIceCandidate` refuses. */
  datatype Browser = Browser(offer: Sdp, answer: Sdp, refused: set<Candidate>)

  datatype SessionState = SessionState(
    myId: Option<SocketId>,
    users: map<SocketId, Option<string>>,
    peers: map<PeerId, Pc>,
    queues: map<PeerId, seq<Candidate>>,
    makingOffer: map<PeerId, bool>,
    attempts: map<PeerId, nat>,
    restarting: map<PeerId, bool>,
    textChannels: map<PeerId, Channel>,
    fileChannels: map<PeerId, Channel>,
    timers: seq<Timer>,
    sent: seq<ClientEmit>,
    log: seq<LogEntry>,
    closed: set<PeerId>,
    messages: seq<ChatMessage>)

  /** The state when the room page mounts: not connected, nothing known. */
  const Initial: SessionState :=
    SessionState(None, map[], map[], map[], map[], map[], map[], map[], map[], [], [], [], {}, [])

  const MaxRestarts: nat := 5

  // ---------------------------------------------------------------------
  // Reading the maps.

  /** `makingOfferMap.get(id) || false`. */
  function MakingOfferOf(s: SessionState, id: PeerId): bool
  {
    id in s.makingOffer && s.makingOffer[id]
  }

  /** `iceRestartAttemptsRef.get(id) ?? 0`. */
  function AttemptsOf(s: SessionState, id: PeerId): nat
  {
    if id in s.attempts then s.attempts[id] else 0
  }

  /** `iceRestartingRef.get(id)` is truthy. */
  predicate InFlight(s: SessionState, id: PeerId)
  {
    Flagged(s.restarting, id)
  }

  /** The name a message from `id` is shown with: the recorded name if one
      is recorded and defined, else the id itself (`?? userID`). */
  function NameOrId(users: map<SocketId, Option<string>>, id: SocketId): string
  {
    if id in users && users[id].Some? then users[id].value else id
  }

  // ---------------------------------------------------------------------
  // The invariant between handlers.

  /** Every peer has a queue and a making-offer flag, and nothing else does. */
  ghost predicate KeysAgree(s: SessionState)
  {
    s.queues.Keys == s.peers.Keys && s.makingOffer.Keys == s.peers.Keys
  }

  /** The per-peer part of the invariant: every peer has a queue and a
      making-offer flag and nothing else does; every connection is well
      formed; between handlers no offer is being made (the flag is only
      true inside `startWebRTC`); and a candidate waits in a queue only
      while its peer has no remote description (once one is set, the queue
      has been drained). */
  ghost predicate PeerRecords(peers: map<PeerId, Pc>, queues: map<PeerId, seq<Candidate>>, makingOffer: map<PeerId, bool>)
  {
    && queues.Keys == peers.Keys && makingOffer.Keys == peers.Keys
    && (forall id :: id in peers ==> WellFormed(peers[id]))
    && (forall id :: id in makingOffer ==> !makingOffer[id])
    && (forall id :: id in peers && id in queues && RemoteDescription(peers[id]).Some? ==> queues[id] == [])
  }

  ghost predicate AttemptsBounded(attempts: map<PeerId, nat>)
  {
    forall id :: id in attempts ==> attempts[id] <= MaxRestarts
  }

  ghost predicate HasTimer(timers: seq<Timer>, id: PeerId)
  {
    exists i :: 0 <= i < |timers| && timers[i].peer == id
  }

  predicate Flagged(restarting: map<PeerId, bool>, id: PeerId)
  {
    id in restarting && restarting[id]
  }

  /** A restart is in flight for a peer exactly when one timer, and only
      one, is pending for it. */
  ghost predicate TimersMatch(restarting: map<PeerId, bool>, timers: seq<Timer>)
  {
    && (forall i, j :: 0 <= i < j < |timers| ==> timers[i].peer != timers[j].peer)
    && (forall i :: 0 <= i < |timers| ==> Flagged(restarting, timers[i].peer))
    && (forall id :: Flagged(restarting, id) ==> HasTimer(timers, id))
  }

  /** Each registry holds only channels of its own label. */
  ghost predicate RegistriesLabelled(textChannels: map<PeerId, Channel>, fileChannels: map<PeerId, Channel>)
  {
    && (forall id :: id in textChannels ==> textChannels[id].name == "chat")
    && (forall id :: id in fileChannels ==> fileChannels[id].name == "file")
  }

  ghost predicate Valid(s: SessionState)
  {
    && PeerRecords(s.peers, s.queues, s.makingOffer)
    && AttemptsBounded(s.attempts)
    && TimersMatch(s.restarting, s.timers)
    && RegistriesLabelled(s.textChannels, s.fileChannels)
  }

  lemma InitialValid()
    ensures Valid(Initial)
  {
  }

  // ---------------------------------------------------------------------
  // Users.

  /** `upsertUser`. */
  function UpsertUser(s: SessionState, id: SocketId, name: Option<string>): SessionState
  {
    s.(users := s.users[id := name])
  }

  /** `deleteUser`, on `user-disconnect`. The peer record is kept. */
  function DeleteUser(s: SessionState, id: SocketId): SessionState
  {
    s.(users := s.users - {id})
  }

  /** A recorded name is what messages from that id show; once the user is
      deleted they show the id. */
  lemma UsersDecideNames(s: SessionState, id: SocketId, name: string)
    ensures NameOrId(UpsertUser(s, id, Some(name)).users, id) == name
    ensures NameOrId(UpsertUser(s, id, None).users, id) == id
    ensures NameOrId(DeleteUser(s, id).users, id) == id
  {
  }

  /** Users and the console log are not part of the invariant. */
  lemma UpsertUserValid(s: SessionState, id: SocketId, name: Option<string>)
    requires Valid(s)
    ensures Valid(UpsertUser(s, id, name))
  {
  }

  lemma LogValid(s: SessionState, e: LogEntry)
    requires Valid(s)
    ensures Valid(s.(log := s.log + [e]))
  {
  }

  // ---------------------------------------------------------------------
  // initPeerConnection.

  /** `initPeerConnection`: an existing record is kept as it is; a new id
      gets a fresh connection, an empty queue and a cleared flag. */
  function InitPeer(s: SessionState, id: PeerId): (r: SessionState)
    ensures id in r.peers && r.peers.Keys == s.peers.Keys + {id}
  {
    if id in s.peers then s
    else s.(peers := s.peers[id := NewPc], queues := s.queues[id := []],
            makingOffer := s.makingOffer[id := false])
  }

  /** Initialising is idempotent and never resets a record: an existing
      peer, its queue and its flag stay as they are; a new one starts
      fresh, and nothing else in the session changes. */
  lemma InitPeerSpec(s: SessionState, id: PeerId)
    ensures InitPeer(InitPeer(s, id), id) == InitPeer(s, id)
    ensures id in s.peers ==> InitPeer(s, id) == s
    ensures id !in s.peers ==> var r := InitPeer(s, id);
      && r.peers[id] == NewPc && r.queues[id] == [] && r.makingOffer[id] == false
      && r.(peers := s.peers, queues := s.queues, makingOffer := s.makingOffer) == s
      && (forall k :: k in s.peers ==> r.peers[k] == s.peers[k])
  {
  }

  lemma InitPeerValid(s: SessionState, id: PeerId)
    requires Valid(s)
    ensures Valid(InitPeer(s, id))
  {
    if id !in s.peers {
      PeerAdded(s.peers, s.queues, s.makingOffer, id);
    }
  }

  /** A fresh record keeps the per-peer invariant. */
  lemma PeerAdded(peers: map<PeerId, Pc>, queues: map<PeerId, seq<Candidate>>, makingOffer: map<PeerId, bool>, id: PeerId)
    requires PeerRecords(peers, queues, makingOffer)
    ensures PeerRecords(peers[id := NewPc], queues[id := []], makingOffer[id := false])
  {
  }

  /** Replacing one peer's connection and queue by a well-formed
      connection and a queue that is empty if the connection has a remote
      description keeps the per-peer invariant. */
  lemma PeerReplaced(peers: map<PeerId, Pc>, queues: map<PeerId, seq<Candidate>>, makingOffer: map<PeerId, bool>,
                     id: PeerId, pc: Pc, q: seq<Candidate>)
    requires PeerRecords(peers, queues, makingOffer) && id in peers
    requires WellFormed(pc) && (RemoteDescription(pc).Some? ==> q == [])
    ensures PeerRecords(peers[id := pc], queues[id := q], makingOffer)
  {
  }

  // ---------------------------------------------------------------------
  // One peer's exchange.

  /** What a handler for one peer works on: that peer's connection, its
      candidate queue (None when the peer has no queue), and the session's
      outputs. */
  datatype Exchange = Exchange(pc: Pc, queue: Option<seq<Candidate>>, sent: seq<ClientEmit>, log: seq<LogEntry>)

  function View(s: SessionState, id: PeerId): Exchange
    requires id in s.peers
  {
    Exchange(s.peers[id], if id in s.queues then Some(s.queues[id]) else None, s.sent, s.log)
  }

  /** Writes an exchange back into the session. */
  function Store(s: SessionState, id: PeerId, x: Exchange): (r: SessionState)
    ensures r.peers.Keys == s.peers.Keys + {id}
    ensures x.queue.Some? ==> r.queues.Keys == s.queues.Keys + {id}
    ensures x.queue.None? ==> r.queues == s.queues
    ensures r.sent == x.sent && r.log == x.log && r.myId == s.myId
  {
    s.(peers := s.peers[id := x.pc],
       queues := if x.queue.Some? then s.queues[id := x.queue.value] else s.queues,
       sent := x.sent, log := x.log)
  }

  function WithPc(s: SessionState, id: PeerId, pc: Pc): SessionState
  {
    s.(peers := s.peers[id := pc])
  }

  /** Storing what was viewed changes nothing. */
  lemma StoreView(s: SessionState, id: PeerId)
    requires id in s.peers
    ensures Store(s, id, View(s, id)) == s
  {
    assert s.peers[id := s.peers[id]] == s.peers;
    if id in s.queues { assert s.queues[id := s.queues[id]] == s.queues; }
  }

  /** Storing a view with only the queue changed changes only the queue. */
  lemma StoreQueue(s: SessionState, id: PeerId, q: seq<Candidate>)
    requires id in s.peers && id in s.queues
    ensures Store(s, id, View(s, id).(queue := Some(q))) == s.(queues := s.queues[id := q])
  {
    assert s.peers[id := s.peers[id]] == s.peers;
  }

  /** Storing a view with only the connection changed changes only the
      connection. */
  lemma StorePc(s: SessionState, id: PeerId, pc: Pc)
    requires id in s.peers && id in s.queues
    ensures Store(s, id, View(s, id).(pc := pc)) == s.(peers := s.peers[id := pc])
  {
    assert s.queues[id := s.queues[id]] == s.queues;
  }

  /** Storing a view with one more log entry only logs it. */
  lemma StoreLog(s: SessionState, id: PeerId, e: LogEntry)
    requires id in s.peers && id in s.queues
    ensures Store(s, id, View(s, id).(log := s.log + [e])) == s.(log := s.log + [e])
  {
    assert s.peers[id := s.peers[id]] == s.peers;
    assert s.queues[id := s.queues[id]] == s.queues;
  }

  /** The per-peer invariant on an exchange: a well-formed connection, and
      candidates wait only while there is no remote description. */
  ghost predicate ExchangeOk(x: Exchange)
  {
    && WellFormed(x.pc)
    && (x.queue.Some? && RemoteDescription(x.pc).Some? ==> x.queue.value == [])
  }

  lemma ViewOk(s: SessionState, id: PeerId)
    requires Valid(s) && id in s.peers
    ensures ExchangeOk(View(s, id)) && View(s, id).queue.Some?
  {
  }

  /** Storing a good exchange for a known peer keeps the invariant. */
  lemma StoreValid(s: SessionState, id: PeerId, x: Exchange)
    requires Valid(s) && id in s.peers && ExchangeOk(x) && x.queue.Some?
    ensures Valid(Store(s, id, x))
  {
    PeerReplaced(s.peers, s.queues, s.makingOffer, id, x.pc, x.queue.value);
  }

  // ---------------------------------------------------------------------
  // processQueuedCandidates.

  function QueueLength(x: Exchange): nat
  {
    if x.queue.Some? then |x.queue.value| else 0
  }

  /** `processQueuedCandidates` on one exchange: takes the candidates off
      the front of the queue one by one and adds each; a refused one is
      logged and the drain goes on. */
  function DrainQueue(x: Exchange, id: PeerId, refused: set<Candidate>): (r: Exchange)
    ensures r.queue.Some? == x.queue.Some? && r.sent == x.sent
    decreases QueueLength(x)
  {
    if x.queue.None? || x.queue.value == [] then x
    else
      var c := x.queue.value[0];
      var x1 := x.(queue := Some(x.queue.value[1..]));
      match AddCandidate(x.pc, c, refused)
      case Ok(pc) => DrainQueue(x1.(pc := pc), id, refused)
      case Rejected => DrainQueue(x1.(log := x1.log + [CandidateFailed(id, c)]), id, refused)
  }

  /** `processQueuedCandidates(id)`: nothing without a connection. */
  function Drain(s: SessionState, id: PeerId, refused: set<Candidate>): SessionState
  {
    if id in s.peers then Store(s, id, DrainQueue(View(s, id), id, refused)) else s
  }

  /** The candidates of `q` the browser accepts, in queue order. */
  function Accepted(q: seq<Candidate>, refused: set<Candidate>): (r: seq<Candidate>)
    ensures |r| <= |q|
  {
    if q == [] then [] else (if q[0] in refused then [] else [q[0]]) + Accepted(q[1..], refused)
  }

  /** The candidates of `q` the browser refuses, in queue order. */
  function Refused(q: seq<Candidate>, refused: set<Candidate>): (r: seq<Candidate>)
    ensures |r| <= |q|
  {
    if q == [] then [] else (if q[0] in refused then [q[0]] else []) + Refused(q[1..], refused)
  }

  /** Each candidate of the queue is either accepted or refused, and every
      occurrence lands in exactly one of the two. */
  lemma {:induction false} AcceptedRefusedSplit(q: seq<Candidate>, refused: set<Candidate>)
    ensures |Accepted(q, refused)| + |Refused(q, refused)| == |q|
    ensures multiset(Accepted(q, refused)) + multiset(Refused(q, refused)) == multiset(q)
    ensures forall c :: c in Accepted(q, refused) ==> c in q && c !in refused
    ensures forall c :: c in Refused(q, refused) ==> c in q && c in refused
  {
    if q != [] {
      AcceptedRefusedSplit(q[1..], refused);
      assert q == [q[0]] + q[1..];
    }
  }

  function FailureLog(id: PeerId, cs: seq<Candidate>): (r: seq<LogEntry>)
    ensures |r| == |cs|
  {
    if cs == [] then [] else [CandidateFailed(id, cs[0])] + FailureLog(id, cs[1..])
  }

  /** Every candidate is taken in FIFO order and tried exactly once: the
      queue ends empty; with a remote description the applied candidates
      grow by the accepted ones in queue order and the refused ones are
      logged in queue order; without one every candidate is logged and
      none applied. Nothing else of the connection changes. */
  lemma {:induction false} DrainQueueSpec(x: Exchange, id: PeerId, refused: set<Candidate>)
    requires x.queue.Some?
    ensures var r := DrainQueue(x, id, refused); var q := x.queue.value;
      && r.queue == Some([]) && r.sent == x.sent
      && r.pc == x.pc.(applied := r.pc.applied)
      && (RemoteDescription(x.pc).Some? ==>
            r.pc.applied == x.pc.applied + Accepted(q, refused)
            && r.log == x.log + FailureLog(id, Refused(q, refused)))
      && (RemoteDescription(x.pc).None? ==> r.pc.applied == x.pc.applied && r.log == x.log + FailureLog(id, q))
  {
    DrainQueueFrame(x, id, refused);
    if RemoteDescription(x.pc).Some? {
      DrainWithRemote(x, id, refused);
    } else {
      DrainWithoutRemote(x, id, refused);
    }
  }

  /** The queue ends empty, nothing is sent and only the applied
      candidates of the connection change. */
  lemma {:induction false} DrainQueueFrame(x: Exchange, id: PeerId, refused: set<Candidate>)
    requires x.queue.Some?
    ensures var r := DrainQueue(x, id, refused);
      r.queue == Some([]) && r.pc == x.pc.(applied := r.pc.applied)
    decreases |x.queue.value|
  {
    var q := x.queue.value;
    if q != [] {
      var x1 := x.(queue := Some(q[1..]));
      match AddCandidate(x.pc, q[0], refused)
      case Ok(pc1) => DrainQueueFrame(x1.(pc := pc1), id, refused);
      case Rejected => DrainQueueFrame(x1.(log := x1.log + [CandidateFailed(id, q[0])]), id, refused);
    }
  }

  lemma {:induction false} DrainWithRemote(x: Exchange, id: PeerId, refused: set<Candidate>)
    requires x.queue.Some? && RemoteDescription(x.pc).Some?
    ensures var r := DrainQueue(x, id, refused); var q := x.queue.value;
      && r.pc.applied == x.pc.applied + Accepted(q, refused)
      && r.log == x.log + FailureLog(id, Refused(q, refused))
    decreases |x.queue.value|
  {
    var q := x.queue.value;
    if q != [] {
      var c := q[0];
      var x1 := x.(queue := Some(q[1..]));
      if c !in refused {
        var pc1 := x.pc.(applied := x.pc.applied + [c]);
        assert AddCandidate(x.pc, c, refused) == Ok(pc1);
        DrainWithRemote(x1.(pc := pc1), id, refused);
        assert Refused(q, refused) == Refused(q[1..], refused);
        assert Accepted(q, refused) == [c] + Accepted(q[1..], refused);
        assert x.pc.applied + Accepted(q, refused) == (x.pc.applied + [c]) + Accepted(q[1..], refused);
      } else {
        var x2 := x1.(log := x1.log + [CandidateFailed(id, c)]);
        DrainWithRemote(x2, id, refused);
        assert Accepted(q, refused) == Accepted(q[1..], refused);
        assert FailureLog(id, Refused(q, refused)) == [CandidateFailed(id, c)] + FailureLog(id, Refused(q[1..], refused));
        assert x.log + FailureLog(id, Refused(q, refused)) == x2.log + FailureLog(id, Refused(q[1..], refused));
      }
    }
  }

  lemma {:induction false} DrainWithoutRemote(x: Exchange, id: PeerId, refused: set<Candidate>)
    requires x.queue.Some? && RemoteDescription(x.pc).None?
    ensures var r := DrainQueue(x, id, refused); var q := x.queue.value;
      r.pc.applied == x.pc.applied && r.log == x.log + FailureLog(id, q)
    decreases |x.queue.value|
  {
    var q := x.queue.value;
    if q != [] {
      var x2 := x.(queue := Some(q[1..]), log := x.log + [CandidateFailed(id, q[0])]);
      DrainWithoutRemote(x2, id, refused);
      assert x.log + FailureLog(id, q) == x2.log + FailureLog(id, q[1..]);
    }
  }

  /** Draining keeps an exchange good. */
  lemma DrainQueueOk(x: Exchange, id: PeerId, refused: set<Candidate>)
    requires WellFormed(x.pc) && x.queue.Some?
    ensures ExchangeOk(DrainQueue(x, id, refused))
  {
    DrainQueueSpec(x, id, refused);
  }

  // ---------------------------------------------------------------------
  // The signal handler.

  /** `isPolite = socket.id < data.sender`: the side with the smaller id
      yields in a collision. */
  predicate IsPolite(me: SocketId, remote: SocketId)
  {
    JsLess(me, remote)
  }

  /** Of two different ids exactly one side is polite, so in a collision
      exactly one side yields; an id is never polite towards itself. */
  lemma ExactlyOnePolite(a: SocketId, b: SocketId)
    ensures a != b ==> IsPolite(a, b) != IsPolite(b, a)
    ensures !IsPolite(a, a)
  {
    JsLessTrichotomy(a, b);
    JsLessTrichotomy(a, a);
  }

  /** `offerCollision`. */
  predicate Collides(pc: Pc, making: bool)
  {
    pc.signaling != Stable || making
  }

  /** Whether the offer branch gets as far as answering: no collision, or a
      collision with a pending description (so the rollback succeeds) on
      the polite side. */
  predicate AnswersOffer(pc: Pc, polite: bool, making: bool)
  {
    Collides(pc, making) ==> polite && pc.signaling != Stable
  }

  /** The answer the handler emits to `target`. */
  function AnswerTo(target: SocketId, username: string, sdp: Sdp): ClientEmit
  {
    SignalEmit(SignalRequest(target, Some(username), AnswerPayload(sdp)))
  }

  /** How a part of the handler ends: it falls through to the next part,
      returns early, or throws into the `catch`. */
  datatype Step = Continue(x: Exchange) | Return(x: Exchange) | Throw(x: Exchange)

  /** The offer branch: drop a colliding offer when impolite; otherwise roll
      back if colliding, set the offer, create and set the answer, emit it
      and drain the queue. */
  function OfferBranch(x: Exchange, username: string, sender: PeerId, offer: Sdp,
                       polite: bool, making: bool, b: Browser): (r: Step)
    ensures r.x.queue.Some? == x.queue.Some?
    ensures r.Continue? <==> AnswersOffer(x.pc, polite, making)
    ensures r.x.sent == x.sent + (if r.Continue? then [AnswerTo(sender, username, b.answer)] else [])
    ensures !r.Continue? ==> r.x == x && (r.Return? <==> Collides(x.pc, making) && !polite)
  {
    var collision := Collides(x.pc, making);
    if collision && !polite then Return(x)
    else
      var rolled := if collision then Rollback(x.pc) else Ok(x.pc);
      // After a successful rollback, or without a collision, the connection
      // is stable, so setting the offer and then the answer cannot fail.
      if rolled.Rejected? then Throw(x)
      else match SetRemoteOffer(rolled.value, offer)
        case Rejected => assert false; Throw(x)
        case Ok(pc1) =>
          match SetLocalAnswer(pc1, b.answer)
          case Rejected => assert false; Throw(x)
          case Ok(pc2) =>
            Continue(DrainQueue(x.(pc := pc2, sent := x.sent + [AnswerTo(sender, username, b.answer)]), sender, b.refused))
  }

  /** The answer branch: set the answer, then drain the queue. */
  function AnswerBranch(x: Exchange, sender: PeerId, answer: Sdp, b: Browser): (r: Step)
    ensures r.x.queue.Some? == x.queue.Some? && r.x.sent == x.sent
    ensures r.Continue? <==> x.pc.signaling == HaveLocalOffer
    ensures !r.Continue? ==> r == Throw(x)
  {
    match SetRemoteAnswer(x.pc, answer)
    case Rejected => Throw(x)
    case Ok(pc) => Continue(DrainQueue(x.(pc := pc), sender, b.refused))
  }

  /** The candidate branch: queue it while there is no remote description
      (returning if there is no queue), otherwise add it at once. */
  function CandidateBranch(x: Exchange, c: Candidate, b: Browser): (r: Step)
    ensures r.x.queue.Some? == x.queue.Some? && r.x.sent == x.sent
  {
    if RemoteDescription(x.pc).None? then
      if x.queue.None? then Return(x)
      else Continue(x.(queue := Some(x.queue.value + [c])))
    else match AddCandidate(x.pc, c, b.refused)
      case Rejected => Throw(x)
      case Ok(pc1) => Continue(x.(pc := pc1))
  }

  /** The `try` block: the three independent branches in order, each run
      only if the previous one fell through. */
  function Envelope(x: Exchange, username: string, data: SignalData, polite: bool, making: bool, b: Browser): (r: Step)
    ensures r.x.queue.Some? == x.queue.Some?
    ensures r.x.sent == x.sent +
      (if data.signal.offer.Some? && AnswersOffer(x.pc, polite, making) then [AnswerTo(data.sender, username, b.answer)] else [])
  {
    var sig := data.signal;
    var r1 := if sig.offer.Some? then OfferBranch(x, username, data.sender, sig.offer.value, polite, making, b) else Continue(x);
    if !r1.Continue? then r1
    else
      var r2 := if sig.answer.Some? then AnswerBranch(r1.x, data.sender, sig.answer.value, b) else r1;
      if !r2.Continue? then r2
      else if sig.candidate.Some? then CandidateBranch(r2.x, sig.candidate.value, b)
      else r2
  }

  /** The `catch`: an error is logged and the handler ends. */
  function Caught(r: Step, sender: PeerId): Exchange
  {
    if r.Throw? then r.x.(log := r.x.log + [SignalingError(sender)]) else r.x
  }

  /** What the handler does before looking at the payload: record the
      sender's name if it came with one, and initialise the peer. */
  function Prepare(s: SessionState, data: SignalData): (r: SessionState)
    ensures data.sender in r.peers
    ensures r.sent == s.sent && r.log == s.log && r.myId == s.myId
    ensures KeysAgree(s) ==> KeysAgree(r)
  {
    var s1 := if Truthy(data.senderName) then UpsertUser(s, data.sender, data.senderName) else s;
    InitPeer(s1, data.sender)
  }

  lemma PrepareValid(s: SessionState, data: SignalData)
    requires Valid(s)
    ensures Valid(Prepare(s, data))
  {
    var s0 := if Truthy(data.senderName) then UpsertUser(s, data.sender, data.senderName) else s;
    if Truthy(data.senderName) { UpsertUserValid(s, data.sender, data.senderName); }
    InitPeerValid(s0, data.sender);
  }

  /** For a known peer, preparing only records the sender's name. */
  lemma PrepareKnown(s: SessionState, data: SignalData)
    requires data.sender in s.peers && Truthy(data.senderName)
    ensures Prepare(s, data) == UpsertUser(s, data.sender, data.senderName)
  {
  }

  /** The `signal` handler. */
  function OnSignal(s: SessionState, username: string, data: SignalData, b: Browser): SessionState
  {
    var s1 := Prepare(s, data);
    if !Truthy(s1.myId) then s1.(log := s1.log + [SocketMissing])
    else
      var x := View(s1, data.sender);
      var polite := IsPolite(s1.myId.value, data.sender);
      Store(s1, data.sender, Caught(Envelope(x, username, data, polite, MakingOfferOf(s1, data.sender), b), data.sender))
  }

  /** The handler accepts an offer (emits an answer) exactly when the socket
      has an id, the envelope carries an offer, and the branch answers it. */
  predicate AcceptsOffer(s: SessionState, data: SignalData)
  {
    var s1 := Prepare(s, data);
    && Truthy(s1.myId)
    && data.signal.offer.Some?
    && AnswersOffer(s1.peers[data.sender], IsPolite(s1.myId.value, data.sender), MakingOfferOf(s1, data.sender))
  }

  /** Sending, for every envelope: the handler emits nothing but one answer
      to the sender, carrying the browser's answer, and it does so exactly
      when it accepts the offer. */
  lemma SignalEmitsAtMostOneAnswer(s: SessionState, username: string, data: SignalData, b: Browser)
    ensures OnSignal(s, username, data, b).sent ==
      s.sent + (if AcceptsOffer(s, data) then [AnswerTo(data.sender, username, b.answer)] else [])
  {
    var s1 := Prepare(s, data);
    if Truthy(s1.myId) {
      var x := View(s1, data.sender);
      var e := Envelope(x, username, data, IsPolite(s1.myId.value, data.sender), MakingOfferOf(s1, data.sender), b);
      assert Caught(e, data.sender).sent == e.x.sent;
      assert OnSignal(s, username, data, b) == Store(s1, data.sender, Caught(e, data.sender));
    }
  }

  // ---------------------------------------------------------------------
  // The branches, one envelope kind at a time.

  /** An answered offer ends stable with the offer as remote and the
      browser's answer as local description, and applies the queued
      candidates in order. */
  lemma OfferBranchSpec(x: Exchange, username: string, sender: PeerId, offer: Sdp,
                        polite: bool, making: bool, b: Browser)
    requires WellFormed(x.pc) && x.queue.Some? && AnswersOffer(x.pc, polite, making)
    ensures var r := OfferBranch(x, username, sender, offer, polite, making, b).x;
      && WellFormed(r.pc) && r.pc.signaling == Stable
      && RemoteDescription(r.pc) == Some(offer) && LocalDescription(r.pc) == Some(b.answer)
      && r.pc.applied == x.pc.applied + Accepted(x.queue.value, b.refused)
      && r.queue == Some([])
      && r.log == x.log + FailureLog(sender, Refused(x.queue.value, b.refused))
  {
    var rolled := if Collides(x.pc, making) then Rollback(x.pc) else Ok(x.pc);
    var pc1 := SetRemoteOffer(rolled.value, offer).value;
    var pc2 := SetLocalAnswer(pc1, b.answer).value;
    OperationsKeepWellFormed(x.pc, offer, "", {});
    OperationsKeepWellFormed(rolled.value, offer, "", {});
    OperationsKeepWellFormed(pc1, b.answer, "", {});
    DrainQueueSpec(x.(pc := pc2, sent := x.sent + [AnswerTo(sender, username, b.answer)]), sender, b.refused);
  }

  /** An answer to our open offer ends stable with the answer as remote
      description, keeps our offer as local one, and applies the queued
      candidates in order. */
  lemma AnswerBranchSpec(x: Exchange, sender: PeerId, answer: Sdp, b: Browser)
    requires WellFormed(x.pc) && x.queue.Some? && x.pc.signaling == HaveLocalOffer
    ensures var r := AnswerBranch(x, sender, answer, b).x;
      && WellFormed(r.pc) && r.pc.signaling == Stable
      && RemoteDescription(r.pc) == Some(answer) && LocalDescription(r.pc) == LocalDescription(x.pc)
      && r.pc.applied == x.pc.applied + Accepted(x.queue.value, b.refused)
      && r.queue == Some([])
      && r.log == x.log + FailureLog(sender, Refused(x.queue.value, b.refused))
  {
    OperationsKeepWellFormed(x.pc, answer, "", {});
    DrainQueueSpec(x.(pc := SetRemoteAnswer(x.pc, answer).value), sender, b.refused);
  }

  /** Without a remote description a candidate joins the end of the queue
      and is not applied; with one it is applied at once, or the branch
      throws if the browser refuses it, and the queue is left alone. */
  lemma CandidateBranchSpec(x: Exchange, c: Candidate, b: Browser)
    requires x.queue.Some?
    ensures var r := CandidateBranch(x, c, b);
      if RemoteDescription(x.pc).None? then r == Continue(x.(queue := Some(x.queue.value + [c])))
      else if c in b.refused then r == Throw(x)
      else r == Continue(x.(pc := x.pc.(applied := x.pc.applied + [c])))
  {
  }

  /** Every branch keeps the exchange good. */
  lemma EnvelopeOk(x: Exchange, username: string, data: SignalData, polite: bool, making: bool, b: Browser)
    requires ExchangeOk(x) && x.queue.Some?
    ensures ExchangeOk(Caught(Envelope(x, username, data, polite, making, b), data.sender))
  {
    var sig := data.signal;
    var r1 := if sig.offer.Some? then OfferBranch(x, username, data.sender, sig.offer.value, polite, making, b) else Continue(x);
    if sig.offer.Some? && r1.Continue? {
      OfferBranchSpec(x, username, data.sender, sig.offer.value, polite, making, b);
    }
    assert ExchangeOk(r1.x);
    if r1.Continue? {
      var r2 := if sig.answer.Some? then AnswerBranch(r1.x, data.sender, sig.answer.value, b) else r1;
      if sig.answer.Some? && r2.Continue? {
        AnswerBranchSpec(r1.x, data.sender, sig.answer.value, b);
      }
      assert ExchangeOk(r2.x);
      if r2.Continue? && sig.candidate.Some? {
        CandidateBranchSpec(r2.x, sig.candidate.value, b);
        OperationsKeepWellFormed(r2.x.pc, "", sig.candidate.value, b.refused);
      }
    }
  }

  /** The signal handler keeps the invariant. */
  lemma OnSignalValid(s: SessionState, username: string, data: SignalData, b: Browser)
    requires Valid(s)
    ensures Valid(OnSignal(s, username, data, b))
  {
    PrepareValid(s, data);
    var s1 := Prepare(s, data);
    if Truthy(s1.myId) {
      EnvelopeStoredValid(s1, username, data, IsPolite(s1.myId.value, data.sender), MakingOfferOf(s1, data.sender), b);
    } else {
      LogValid(s1, SocketMissing);
    }
    OnSignalSteps(s, username, data, b);
  }

  /** Storing what the envelope did to a known peer keeps the invariant. */
  lemma EnvelopeStoredValid(s: SessionState, username: string, data: SignalData, polite: bool, making: bool, b: Browser)
    requires Valid(s) && data.sender in s.peers
    ensures Valid(Store(s, data.sender, Caught(Envelope(View(s, data.sender), username, data, polite, making, b), data.sender)))
  {
    var x := View(s, data.sender);
    ViewOk(s, data.sender);
    EnvelopeOk(x, username, data, polite, making, b);
    StoreValid(s, data.sender, Caught(Envelope(x, username, data, polite, making, b), data.sender));
  }

  /** The handler in its two cases: without a socket id it only logs;
      otherwise it stores the caught envelope's exchange. */
  /** The handler unfolded into its steps; a proof helper. */
  lemma OnSignalSteps(s: SessionState, username: string, data: SignalData, b: Browser)
    ensures var s1 := Prepare(s, data);
      && (!Truthy(s1.myId) ==> OnSignal(s, username, data, b) == s1.(log := s1.log + [SocketMissing]))
      && (Truthy(s1.myId) ==>
            var x := View(s1, data.sender);
            OnSignal(s, username, data, b)
            == Store(s1, data.sender, Caught(Envelope(x, username, data, IsPolite(s1.myId.value, data.sender),
                                                      MakingOfferOf(s1, data.sender), b), data.sender)))
  {
  }

  /** Without a socket id the handler sends nothing and touches no
      connection: it records the sender's name, initialises the sender's
      record if it had none, and warns. */
  lemma SignalWithoutSocket(s: SessionState, username: string, data: SignalData, b: Browser)
    requires !Truthy(s.myId)
    ensures var r := OnSignal(s, username, data, b);
      && r.sent == s.sent && r.log == s.log + [SocketMissing]
      && r.(users := s.users, peers := s.peers, queues := s.queues, makingOffer := s.makingOffer, log := s.log) == s
      && data.sender in r.peers
      && (forall k :: k in s.peers ==> k in r.peers && r.peers[k] == s.peers[k])
      && (data.sender in s.peers ==> r.peers == s.peers && r.queues == s.queues && r.makingOffer == s.makingOffer)
  {
    var s0 := if Truthy(data.senderName) then UpsertUser(s, data.sender, data.senderName) else s;
    assert s0.(users := s.users) == s;
    var s1 := InitPeer(s0, data.sender);
    assert s1 == Prepare(s, data);
    InitPeerSpec(s0, data.sender);
    assert s1.(peers := s0.peers, queues := s0.queues, makingOffer := s0.makingOffer) == s0;
    assert OnSignal(s, username, data, b) == s1.(log := s.log + [SocketMissing]);
  }

  // ---------------------------------------------------------------------
  // The handler, one envelope kind at a time.

  /** A colliding offer at the impolite side is dropped: the handler ends
      right after recording the sender and initialising the peer, so no
      answer is sent, no description changes, and whatever else the
      envelope carries is ignored. */
  lemma ImpoliteDropsCollidingOffer(s: SessionState, username: string, data: SignalData, b: Browser)
    requires var s1 := Prepare(s, data);
      && Truthy(s1.myId) && data.signal.offer.Some?
      && Collides(s1.peers[data.sender], MakingOfferOf(s1, data.sender))
      && !IsPolite(s1.myId.value, data.sender)
    ensures OnSignal(s, username, data, b) == Prepare(s, data)
    ensures OnSignal(s, username, data, b).sent == s.sent
    ensures data.sender in s.peers ==> OnSignal(s, username, data, b).peers[data.sender] == s.peers[data.sender]
  {
    StoreView(Prepare(s, data), data.sender);
  }

  /** An accepted offer (an envelope with an offer only): the connection
      ends stable with the offer as remote and the browser's answer as local
      description, the answer goes to the sender, the queued candidates are
      applied in order and the queue emptied. */
  lemma AcceptedOfferSpec(s: SessionState, username: string, data: SignalData, b: Browser)
    requires Valid(s) && data.signal.answer.None? && data.signal.candidate.None?
    requires AcceptsOffer(s, data)
    ensures var s1 := Prepare(s, data); var r := OnSignal(s, username, data, b);
      var pc := r.peers[data.sender];
      && pc.signaling == Stable
      && RemoteDescription(pc) == data.signal.offer && LocalDescription(pc) == Some(b.answer)
      && pc.applied == s1.peers[data.sender].applied + Accepted(s1.queues[data.sender], b.refused)
      && r.queues[data.sender] == []
      && r.sent == s.sent + [AnswerTo(data.sender, username, b.answer)]
  {
    PrepareValid(s, data);
    var s1 := Prepare(s, data);
    var x := View(s1, data.sender);
    ViewOk(s1, data.sender);
    var polite, making := IsPolite(s1.myId.value, data.sender), MakingOfferOf(s1, data.sender);
    OfferBranchSpec(x, username, data.sender, data.signal.offer.value, polite, making, b);
    var e := Envelope(x, username, data, polite, making, b);
    assert e == OfferBranch(x, username, data.sender, data.signal.offer.value, polite, making, b);
    assert OnSignal(s, username, data, b) == Store(s1, data.sender, e.x);
  }

  /** An answer (an envelope with an answer only) completes an exchange
      this side started: with an open local offer the connection becomes
      stable with the answer as remote description and the queue is
      drained; in any other state the answer is refused and logged and
      nothing else changes. */
  lemma AnswerSpec(s: SessionState, username: string, data: SignalData, b: Browser)
    requires Valid(s) && Truthy(Prepare(s, data).myId)
    requires data.signal.offer.None? && data.signal.answer.Some? && data.signal.candidate.None?
    ensures var s1 := Prepare(s, data); var r := OnSignal(s, username, data, b);
      var pc0 := s1.peers[data.sender];
      if pc0.signaling == HaveLocalOffer then
        && r.peers[data.sender].signaling == Stable
        && RemoteDescription(r.peers[data.sender]) == data.signal.answer
        && LocalDescription(r.peers[data.sender]) == LocalDescription(pc0)
        && r.queues[data.sender] == []
        && r.peers[data.sender].applied == pc0.applied + Accepted(s1.queues[data.sender], b.refused)
        && r.sent == s.sent
      else
        r == s1.(log := s1.log + [SignalingError(data.sender)])
  {
    if Prepare(s, data).peers[data.sender].signaling == HaveLocalOffer {
      AnswerTaken(s, username, data, b);
    } else {
      AnswerRefused(s, username, data, b);
    }
  }

  lemma AnswerTaken(s: SessionState, username: string, data: SignalData, b: Browser)
    requires Valid(s) && Truthy(Prepare(s, data).myId)
    requires data.signal.offer.None? && data.signal.answer.Some? && data.signal.candidate.None?
    requires Prepare(s, data).peers[data.sender].signaling == HaveLocalOffer
    ensures var s1 := Prepare(s, data); var r := OnSignal(s, username, data, b);
      var pc0 := s1.peers[data.sender];
      && r.peers[data.sender].signaling == Stable
      && RemoteDescription(r.peers[data.sender]) == data.signal.answer
      && LocalDescription(r.peers[data.sender]) == LocalDescription(pc0)
      && r.queues[data.sender] == []
      && r.peers[data.sender].applied == pc0.applied + Accepted(s1.queues[data.sender], b.refused)
      && r.sent == s.sent
  {
    PrepareValid(s, data);
    var s1 := Prepare(s, data);
    var x := View(s1, data.sender);
    ViewOk(s1, data.sender);
    var polite, making := IsPolite(s1.myId.value, data.sender), MakingOfferOf(s1, data.sender);
    var e := Envelope(x, username, data, polite, making, b);
    assert e == AnswerBranch(x, data.sender, data.signal.answer.value, b);
    OnSignalSteps(s, username, data, b);
    AnswerBranchSpec(x, data.sender, data.signal.answer.value, b);
  }

  lemma AnswerRefused(s: SessionState, username: string, data: SignalData, b: Browser)
    requires Valid(s) && Truthy(Prepare(s, data).myId)
    requires data.signal.offer.None? && data.signal.answer.Some? && data.signal.candidate.None?
    requires Prepare(s, data).peers[data.sender].signaling != HaveLocalOffer
    ensures var s1 := Prepare(s, data);
      OnSignal(s, username, data, b) == s1.(log := s1.log + [SignalingError(data.sender)])
  {
    var s1 := Prepare(s, data);
    var x := View(s1, data.sender);
    var polite, making := IsPolite(s1.myId.value, data.sender), MakingOfferOf(s1, data.sender);
    var e := Envelope(x, username, data, polite, making, b);
    assert e == Throw(x);
    OnSignalSteps(s, username, data, b);
    StoreView(s1, data.sender);
  }

  /** A candidate (an envelope with a candidate only): without a remote
      description it joins the end of the queue and is not applied; with
      one it is applied at once, or logged if refused, and the queue is
      left alone. */
  lemma CandidateSpec(s: SessionState, username: string, data: SignalData, b: Browser)
    requires Valid(s) && Truthy(Prepare(s, data).myId)
    requires data.signal.offer.None? && data.signal.answer.None? && data.signal.candidate.Some?
    ensures var s1 := Prepare(s, data); var r := OnSignal(s, username, data, b);
      var pc0 := s1.peers[data.sender]; var c := data.signal.candidate.value;
      if RemoteDescription(pc0).None? then
        r == s1.(queues := s1.queues[data.sender := s1.queues[data.sender] + [c]])
      else if c in b.refused then
        r == s1.(log := s1.log + [SignalingError(data.sender)])
      else
        r == s1.(peers := s1.peers[data.sender := pc0.(applied := pc0.applied + [c])])
  {
    var s1 := Prepare(s, data);
    var x := View(s1, data.sender);
    var c := data.signal.candidate.value;
    var e := Envelope(x, username, data, IsPolite(s1.myId.value, data.sender), MakingOfferOf(s1, data.sender), b);
    assert e == CandidateBranch(x, c, b);
    OnSignalSteps(s, username, data, b);
    CandidateBranchSpec(x, c, b);
    var pc0 := s1.peers[data.sender];
    if RemoteDescription(pc0).None? {
      StoreQueue(s1, data.sender, s1.queues[data.sender] + [c]);
    } else if c in b.refused {
      StoreLog(s1, data.sender, SignalingError(data.sender));
    } else {
      StorePc(s1, data.sender, pc0.(applied := pc0.applied + [c]));
    }
  }

  /** Candidates from one sender, each in its own envelope. */
  function ReceiveCandidates(s: SessionState, username: string, sender: PeerId, senderName: Option<string>,
                             cs: seq<Candidate>, b: Browser): SessionState
    decreases |cs|
  {
    if cs == [] then s
    else ReceiveCandidates(OnSignal(s, username, SignalData(sender, senderName, CandidatePayload(cs[0])), b),
                           username, sender, senderName, cs[1..], b)
  }

  /** Candidates that arrive before any remote description wait in arrival
      order and change nothing else of the connection. */
  lemma {:induction false} CandidatesQueueInOrder(s: SessionState, username: string, sender: PeerId,
                                                  senderName: Option<string>, cs: seq<Candidate>, b: Browser)
    requires Valid(s) && Truthy(s.myId) && Truthy(senderName) && sender in s.peers
    requires RemoteDescription(s.peers[sender]).None?
    ensures var r := ReceiveCandidates(s, username, sender, senderName, cs, b);
      && Valid(r) && sender in r.peers && r.peers[sender] == s.peers[sender]
      && r.queues[sender] == s.queues[sender] + cs
      && r.sent == s.sent && r.myId == s.myId
    decreases |cs|
  {
    if cs != [] {
      var s1 := OnSignal(s, username, SignalData(sender, senderName, CandidatePayload(cs[0])), b);
      assert ReceiveCandidates(s, username, sender, senderName, cs, b)
          == ReceiveCandidates(s1, username, sender, senderName, cs[1..], b);
      CandidateQueued(s, username, sender, senderName, cs[0], b);
      CandidatesQueueInOrder(s1, username, sender, senderName, cs[1..], b);
      AppendFirst(s.queues[sender], cs);
    }
  }

  lemma EmptyPrefix<T>(a: seq<T>, c: seq<T>)
    requires a == []
    ensures a + c == c
  {
  }

  lemma AppendFirst<T>(a: seq<T>, c: seq<T>)
    requires c != []
    ensures a + c == (a + [c[0]]) + c[1..]
  {
  }

  /** One step of CandidatesQueueInOrder. */
  lemma CandidateQueued(s: SessionState, username: string, sender: PeerId,
                        senderName: Option<string>, c: Candidate, b: Browser)
    requires Valid(s) && Truthy(s.myId) && Truthy(senderName) && sender in s.peers
    requires RemoteDescription(s.peers[sender]).None?
    ensures var r := OnSignal(s, username, SignalData(sender, senderName, CandidatePayload(c)), b);
      && Valid(r) && r.peers == s.peers && r.queues == s.queues[sender := s.queues[sender] + [c]]
      && r.sent == s.sent && r.myId == s.myId
  {
    var data := SignalData(sender, senderName, CandidatePayload(c));
    PrepareKnown(s, data);
    CandidateSpec(s, username, data, b);
    OnSignalValid(s, username, data, b);
  }

  /** Trickle before the answer: after our offer, the candidates that
      arrive ahead of the answer are all applied, in arrival order, once the
      answer lands. */
  lemma CandidatesBeforeAnswer(s: SessionState, username: string, sender: PeerId, senderName: Option<string>,
                               cs: seq<Candidate>, answer: Sdp, b: Browser)
    requires Valid(s) && Truthy(s.myId) && Truthy(senderName) && sender in s.peers
    requires s.peers[sender].signaling == HaveLocalOffer && RemoteDescription(s.peers[sender]).None?
    requires s.queues[sender] == []
    ensures var r := OnSignal(ReceiveCandidates(s, username, sender, senderName, cs, b), username,
                              SignalData(sender, senderName, AnswerPayload(answer)), b);
      && sender in r.peers && sender in r.queues
      && r.peers[sender].signaling == Stable
      && RemoteDescription(r.peers[sender]) == Some(answer)
      && r.peers[sender].applied == s.peers[sender].applied + Accepted(cs, b.refused)
      && r.queues[sender] == []
  {
    var t := ReceiveCandidates(s, username, sender, senderName, cs, b);
    CandidatesQueueInOrder(s, username, sender, senderName, cs, b);
    EmptyPrefix(s.queues[sender], cs);
    AnswerDrainsQueue(t, username, sender, senderName, cs, answer, b);
  }

  /** An answer to an open offer of a known peer applies its queue. */
  lemma AnswerDrainsQueue(t: SessionState, username: string, sender: PeerId, senderName: Option<string>,
                          q: seq<Candidate>, answer: Sdp, b: Browser)
    requires Valid(t) && Truthy(t.myId) && Truthy(senderName) && sender in t.peers
    requires t.peers[sender].signaling == HaveLocalOffer && t.queues[sender] == q
    ensures var r := OnSignal(t, username, SignalData(sender, senderName, AnswerPayload(answer)), b);
      && sender in r.peers && sender in r.queues
      && r.peers[sender].signaling == Stable
      && RemoteDescription(r.peers[sender]) == Some(answer)
      && r.peers[sender].applied == t.peers[sender].applied + Accepted(q, b.refused)
      && r.queues[sender] == []
  {
    var data := SignalData(sender, senderName, AnswerPayload(answer));
    PrepareKnown(t, data);
    AnswerTaken(t, username, data, b);
  }

  /** Glare: both sides sent an offer and each receives the other's. The
      polite side answers and the impolite side drops the offer; once the
      answer reaches the impolite side, both connections are stable and
      each side's local description is the other's remote one. */
  lemma GlareConverges(sp: SessionState, p: SocketId, si: SessionState, i: SocketId,
                       namep: string, namei: string, op: Sdp, oi: Sdp, bp: Browser, bi: Browser)
    requires Valid(sp) && Valid(si) && p != "" && i != "" && namep != "" && namei != "" && IsPolite(p, i)
    requires sp.myId == Some(p) && si.myId == Some(i)
    requires i in sp.peers && sp.peers[i].signaling == HaveLocalOffer && LocalDescription(sp.peers[i]) == Some(op)
    requires p in si.peers && si.peers[p].signaling == HaveLocalOffer && LocalDescription(si.peers[p]) == Some(oi)
    ensures var rp := OnSignal(sp, namep, SignalData(i, Some(namei), OfferPayload(oi)), bp);
            var ri := OnSignal(si, namei, SignalData(p, Some(namep), OfferPayload(op)), bi);
            var ri2 := OnSignal(ri, namei, SignalData(p, Some(namep), AnswerPayload(bp.answer)), bi);
      && rp.sent == sp.sent + [AnswerTo(i, namep, bp.answer)]
      && ri.sent == si.sent
      && rp.peers[i].signaling == Stable && ri2.peers[p].signaling == Stable
      && LocalDescription(rp.peers[i]) == RemoteDescription(ri2.peers[p]) == Some(bp.answer)
      && RemoteDescription(rp.peers[i]) == LocalDescription(ri2.peers[p]) == Some(oi)
  {
    ExactlyOnePolite(p, i);
    var dp := SignalData(i, Some(namei), OfferPayload(oi));
    var di := SignalData(p, Some(namep), OfferPayload(op));
    // The polite side answers.
    PrepareKnown(sp, dp);
    assert AcceptsOffer(sp, dp);
    AcceptedOfferSpec(sp, namep, dp, bp);
    // The impolite side drops the offer and keeps its own.
    PrepareKnown(si, di);
    ImpoliteDropsCollidingOffer(si, namei, di, bi);
    var ri := OnSignal(si, namei, di, bi);
    assert ri == UpsertUser(si, p, Some(namep));
    UpsertUserValid(si, p, Some(namep));
    // The polite side's answer completes the impolite side's offer.
    var da := SignalData(p, Some(namep), AnswerPayload(bp.answer));
    PrepareKnown(ri, da);
    AnswerSpec(ri, namei, da, bi);
  }

  // ---------------------------------------------------------------------
  // Data channels (setupChannel and its handlers).

  /** `setupChannel`'s registry update: a channel labelled "chat" or
      "file" becomes the registered one of its kind for the peer. */
  function RegisterChannel(s: SessionState, id: PeerId, dc: Channel): SessionState
  {
    var s1 := if dc.name == "chat" then s.(textChannels := s.textChannels[id := dc]) else s;
    if dc.name == "file" then s1.(fileChannels := s1.fileChannels[id := dc]) else s1
  }

  /** A channel's `onclose`: the peer leaves both registries, whichever of
      its channels closed. */
  function ChannelClosed(s: SessionState, id: PeerId): SessionState
  {
    s.(textChannels := s.textChannels - {id}, fileChannels := s.fileChannels - {id})
  }

  /** A string message on a "chat" channel: it joins the message list under
      the sender's recorded name, or its id. */
  function ChatReceived(s: SessionState, id: PeerId, p: ChatPayload, uuid: string): SessionState
  {
    s.(messages := s.messages + [TextMessage(uuid, id, NameOrId(s.users, id), p.msg, p.ts)])
  }

  /** Registering a channel of either kind makes it the peer's channel of
      that kind and touches no other peer or anything else; a channel of
      another label is not registered. */
  lemma RegisterChannelSpec(s: SessionState, id: PeerId, dc: Channel)
    ensures var r := RegisterChannel(s, id, dc);
      && r.textChannels == (if dc.name == "chat" then s.textChannels[id := dc] else s.textChannels)
      && r.fileChannels == (if dc.name == "file" then s.fileChannels[id := dc] else s.fileChannels)
      && r.(textChannels := s.textChannels, fileChannels := s.fileChannels) == s
  {
    LabelsDiffer();
  }

  lemma LabelsDiffer()
    ensures "chat" != "file"
  {
    assert "chat"[0] != "file"[0];
  }

  /** Both registries keep holding only channels of their own label. */
  lemma RegisterChannelLabelled(s: SessionState, id: PeerId, dc: Channel)
    requires RegistriesLabelled(s.textChannels, s.fileChannels)
    ensures var r := RegisterChannel(s, id, dc); RegistriesLabelled(r.textChannels, r.fileChannels)
  {
    RegisterChannelSpec(s, id, dc);
  }

  /** Closing a channel removes the peer from both registries and touches
      nothing else. */
  lemma ChannelClosedSpec(s: SessionState, id: PeerId)
    requires RegistriesLabelled(s.textChannels, s.fileChannels)
    ensures var r := ChannelClosed(s, id);
      && RegistriesLabelled(r.textChannels, r.fileChannels)
      && id !in r.textChannels && id !in r.fileChannels
      && r.textChannels.Keys == s.textChannels.Keys - {id} && r.fileChannels.Keys == s.fileChannels.Keys - {id}
      && (forall k :: k in r.textChannels ==> r.textChannels[k] == s.textChannels[k])
      && (forall k :: k in r.fileChannels ==> r.fileChannels[k] == s.fileChannels[k])
      && r.(textChannels := s.textChannels, fileChannels := s.fileChannels) == s
  {
  }

  /** The text message of `sendChat`, when the socket has an id and the user
      a name. The send to every open chat channel is a method of the
      session. */
  function SendChat(s: SessionState, username: string, msg: string, ts: int, uuid: string): SessionState
  {
    if !Truthy(s.myId) || username == "" then s
    else s.(messages := s.messages + [TextMessage(uuid, s.myId.value, username, msg, ts)])
  }

  /** Own messages are listed under the own id and name, other members'
      messages under their id and the name they are known by. */
  lemma MessagesAttributed(s: SessionState, username: string, msg: string, ts: int, uuid: string,
                           id: PeerId, p: ChatPayload)
    ensures Truthy(s.myId) && username != "" ==>
      SendChat(s, username, msg, ts, uuid).messages == s.messages + [TextMessage(uuid, s.myId.value, username, msg, ts)]
    ensures !Truthy(s.myId) || username == "" ==> SendChat(s, username, msg, ts, uuid) == s
    ensures var m := ChatReceived(s, id, p, uuid).messages;
      |m| == |s.messages| + 1 && m[..|s.messages|] == s.messages
      && m[|s.messages|].fromID == id && m[|s.messages|].text == p.msg && m[|s.messages|].ts == p.ts
      && m[|s.messages|].fromName == (if id in s.users && s.users[id].Some? then s.users[id].value else id)
  {
  }

  // ---------------------------------------------------------------------
  // startWebRTC and the connection handlers.

  /** Creates a channel on the connection and registers it. */
  function OpenChannel(s: SessionState, id: PeerId, dc: Channel): (r: SessionState)
    requires id in s.peers
    ensures r.peers.Keys == s.peers.Keys
  {
    RegisterChannel(WithPc(s, id, CreateDataChannel(s.peers[id], dc.name)), id, dc)
  }

  /** The offer startWebRTC emits. */
  function OfferTo(target: SocketId, sdp: Sdp): ClientEmit
  {
    SignalEmit(SignalRequest(target, None, OfferPayload(sdp)))
  }

  /** The channels `startWebRTC` creates: one of each kind that is not
      registered for the peer yet. */
  function OpenMissingChannels(s: SessionState, id: PeerId, chat: Channel, file: Channel): (r: SessionState)
    requires id in s.peers
    requires id !in s.textChannels ==> chat.name == "chat"
    requires id !in s.fileChannels ==> file.name == "file"
    ensures id in r.peers
  {
    var s1 := if id !in s.textChannels then OpenChannel(s, id, chat) else s;
    if id !in s1.fileChannels then OpenChannel(s1, id, file) else s1
  }

  /** The `try`/`finally` of `startWebRTC`: set the flag, create and set an
      offer and emit it (or log the failure), then clear the flag. */
  function MakeOffer(s: SessionState, id: PeerId, b: Browser): (r: SessionState)
    requires id in s.peers
    ensures r.(peers := s.peers, makingOffer := s.makingOffer, sent := s.sent, log := s.log) == s
  {
    var s1 := s.(makingOffer := s.makingOffer[id := true]);
    var s2 := TryOffer(s1, id, b);
    s2.(makingOffer := s2.makingOffer[id := false])
  }

  /** The `try` block: create an offer, set it, emit it; a rejection is
      logged by the `catch`. */
  function TryOffer(s: SessionState, id: PeerId, b: Browser): (r: SessionState)
    requires id in s.peers
    ensures r.(peers := s.peers, sent := s.sent, log := s.log) == s
  {
    match SetLocalOffer(s.peers[id], b.offer)
    case Ok(pc) => s.(peers := s.peers[id := pc], sent := s.sent + [OfferTo(id, b.offer)])
    case Rejected => s.(log := s.log + [OfferFailed(id)])
  }

  /** `startWebRTC`: initialise the peer, create the "chat" and "file"
      channels that are not registered yet (`chat` and `file` are the
      channels the browser then returns), and make an offer. */
  function StartWebRTC(s: SessionState, id: PeerId, chat: Channel, file: Channel, b: Browser): SessionState
    requires id !in s.textChannels ==> chat.name == "chat"
    requires id !in s.fileChannels ==> file.name == "file"
  {
    MakeOffer(OpenMissingChannels(InitPeer(s, id), id, chat, file), id, b)
  }

  /** A channel kind is created and registered only when none is
      registered; the connection gains exactly the labels of the created
      channels; nothing but the connection's channel list and the
      registries changes, and the invariant is kept. */
  lemma OpenMissingChannelsSpec(s: SessionState, id: PeerId, chat: Channel, file: Channel)
    requires id in s.peers
    requires id !in s.textChannels ==> chat.name == "chat"
    requires id !in s.fileChannels ==> file.name == "file"
    ensures var r := OpenMissingChannels(s, id, chat, file); var pc := s.peers[id];
      && r.textChannels == (if id in s.textChannels then s.textChannels else s.textChannels[id := chat])
      && r.fileChannels == (if id in s.fileChannels then s.fileChannels else s.fileChannels[id := file])
      && r.peers == s.peers[id := pc.(channels := pc.channels + (if id in s.textChannels then [] else ["chat"])
                                                        + (if id in s.fileChannels then [] else ["file"]))]
      && r.(peers := s.peers, textChannels := s.textChannels, fileChannels := s.fileChannels) == s
      && (Valid(s) ==> Valid(r))
  {
    var pc := s.peers[id];
    var s1 := if id !in s.textChannels then OpenChannel(s, id, chat) else s;
    if id !in s.textChannels { OpenChannelSpec(s, id, chat); }
    if id !in s1.fileChannels { OpenChannelSpec(s1, id, file); }
    if id in s.textChannels && id in s.fileChannels {
      assert pc.(channels := pc.channels + [] + []) == pc;
    } else if id in s.textChannels {
      assert pc.channels + [] + ["file"] == pc.channels + ["file"];
    } else if id in s.fileChannels {
      assert pc.channels + ["chat"] + [] == pc.channels + ["chat"];
    }
  }

  /** Opening one channel adds its label to the connection and registers
      it, and keeps the invariant. */
  lemma OpenChannelSpec(s: SessionState, id: PeerId, dc: Channel)
    requires id in s.peers && (dc.name == "chat" || dc.name == "file")
    ensures var r := OpenChannel(s, id, dc); var pc := s.peers[id];
      && r.peers == s.peers[id := pc.(channels := pc.channels + [dc.name])]
      && r.textChannels == (if dc.name == "chat" then s.textChannels[id := dc] else s.textChannels)
      && r.fileChannels == (if dc.name == "file" then s.fileChannels[id := dc] else s.fileChannels)
      && r.(peers := s.peers, textChannels := s.textChannels, fileChannels := s.fileChannels) == s
      && (Valid(s) ==> Valid(r))
  {
    var s1 := WithPc(s, id, CreateDataChannel(s.peers[id], dc.name));
    RegisterChannelSpec(s1, id, dc);
    if Valid(s) {
      OperationsKeepWellFormed(s.peers[id], dc.name, "", {});
      assert Valid(s1);
      RegisterChannelLabelled(s1, id, dc);
    }
  }

  /** Making an offer leaves the flag false whether or not the offer could
      be set; the offer is set and emitted exactly when the connection is
      not answering a remote offer, and the remote description, the applied
      candidates and the channels of the connection are untouched. */
  lemma MakeOfferSpec(s: SessionState, id: PeerId, b: Browser)
    requires id in s.peers
    ensures var r := MakeOffer(s, id, b); var pc := s.peers[id];
      && r.makingOffer == s.makingOffer[id := false]
      && id in r.peers
      && RemoteDescription(r.peers[id]) == RemoteDescription(pc) && r.peers[id].applied == pc.applied
      && r.peers[id].channels == pc.channels
      && (pc.signaling != HaveRemoteOffer ==>
            r.peers[id].signaling == HaveLocalOffer && LocalDescription(r.peers[id]) == Some(b.offer)
            && r.sent == s.sent + [OfferTo(id, b.offer)] && r.log == s.log)
      && (pc.signaling == HaveRemoteOffer ==> r.peers == s.peers && r.sent == s.sent && r.log == s.log + [OfferFailed(id)])
  {
    if s.peers[id].signaling != HaveRemoteOffer {
      MakeOfferSets(s, id, b);
    } else {
      MakeOfferFails(s, id, b);
    }
  }

  /** Making an offer touches no other peer and no queue. */
  lemma MakeOfferFrame(s: SessionState, id: PeerId, b: Browser)
    requires id in s.peers
    ensures var r := MakeOffer(s, id, b);
      && r.queues == s.queues && r.peers.Keys == s.peers.Keys
      && (forall k :: k in s.peers && k != id ==> r.peers[k] == s.peers[k])
  {
    if s.peers[id].signaling != HaveRemoteOffer {
      MakeOfferSets(s, id, b);
    } else {
      MakeOfferFails(s, id, b);
    }
  }

  /** The state after an offer that could be set. */
  lemma MakeOfferSets(s: SessionState, id: PeerId, b: Browser)
    requires id in s.peers && s.peers[id].signaling != HaveRemoteOffer
    ensures MakeOffer(s, id, b) == s.(peers := s.peers[id := SetLocalOffer(s.peers[id], b.offer).value],
                                      sent := s.sent + [OfferTo(id, b.offer)],
                                      makingOffer := s.makingOffer[id := false])
  {
    var flagged := s.makingOffer[id := true];
    assert flagged[id := false] == s.makingOffer[id := false];
  }

  /** The state after an offer the connection refused. */
  lemma MakeOfferFails(s: SessionState, id: PeerId, b: Browser)
    requires id in s.peers && s.peers[id].signaling == HaveRemoteOffer
    ensures MakeOffer(s, id, b) == s.(log := s.log + [OfferFailed(id)], makingOffer := s.makingOffer[id := false])
  {
    var flagged := s.makingOffer[id := true];
    assert flagged[id := false] == s.makingOffer[id := false];
  }

  lemma MakeOfferValid(s: SessionState, id: PeerId, b: Browser)
    requires Valid(s) && id in s.peers
    ensures Valid(MakeOffer(s, id, b))
  {
    var pc := s.peers[id];
    if pc.signaling != HaveRemoteOffer {
      MakeOfferSets(s, id, b);
      OperationsKeepWellFormed(pc, b.offer, "", {});
      OfferSet(s.peers, s.queues, s.makingOffer, id, SetLocalOffer(pc, b.offer).value);
    } else {
      MakeOfferFails(s, id, b);
      FlagCleared(s.peers, s.queues, s.makingOffer, id);
    }
  }

  /** A connection replaced by a well-formed one with the same remote
      description, and its flag cleared, keeps the per-peer invariant. */
  lemma OfferSet(peers: map<PeerId, Pc>, queues: map<PeerId, seq<Candidate>>, makingOffer: map<PeerId, bool>,
                 id: PeerId, pc: Pc)
    requires PeerRecords(peers, queues, makingOffer) && id in peers
    requires WellFormed(pc) && RemoteDescription(pc) == RemoteDescription(peers[id])
    ensures PeerRecords(peers[id := pc], queues, makingOffer[id := false])
  {
  }

  lemma FlagCleared(peers: map<PeerId, Pc>, queues: map<PeerId, seq<Candidate>>, makingOffer: map<PeerId, bool>,
                    id: PeerId)
    requires PeerRecords(peers, queues, makingOffer) && id in peers
    ensures PeerRecords(peers, queues, makingOffer[id := false])
  {
  }

  /** Replacing a connection by a well-formed one that has a remote
      description only if the old one had keeps the invariant. */
  lemma WithPcValid(s: SessionState, id: PeerId, pc: Pc)
    requires Valid(s) && id in s.peers && WellFormed(pc)
    requires RemoteDescription(pc).Some? ==> RemoteDescription(s.peers[id]).Some?
    ensures Valid(WithPc(s, id, pc))
  {
    PeerReplaced(s.peers, s.queues, s.makingOffer, id, pc, s.queues[id]);
    assert s.queues[id := s.queues[id]] == s.queues;
  }

  /** The emitted messages and the console log are not part of the
      invariant. */
  lemma OutputsValid(s: SessionState, sent: seq<ClientEmit>, log: seq<LogEntry>)
    requires Valid(s)
    ensures Valid(s.(sent := sent, log := log))
  {
  }

  /** `startWebRTC` creates channels only for kinds not registered yet,
      and registers them; the queue of a known peer is kept. */
  lemma StartWebRTCChannels(s: SessionState, id: PeerId, chat: Channel, file: Channel, b: Browser)
    requires id !in s.textChannels ==> chat.name == "chat"
    requires id !in s.fileChannels ==> file.name == "file"
    ensures var r := StartWebRTC(s, id, chat, file, b); var pc0 := InitPeer(s, id).peers[id];
      && r.textChannels == (if id in s.textChannels then s.textChannels else s.textChannels[id := chat])
      && r.fileChannels == (if id in s.fileChannels then s.fileChannels else s.fileChannels[id := file])
      && r.peers[id].channels == pc0.channels + (if id in s.textChannels then [] else ["chat"]) + (if id in s.fileChannels then [] else ["file"])
      && r.queues == InitPeer(s, id).queues
  {
    var s1 := InitPeer(s, id);
    OpenMissingChannelsSpec(s1, id, chat, file);
    MakeOfferSpec(OpenMissingChannels(s1, id, chat, file), id, b);
    MakeOfferFrame(OpenMissingChannels(s1, id, chat, file), id, b);
  }

  /** `startWebRTC` leaves the flag false, and emits an offer exactly when
      the connection was not answering a remote offer; the remote side of
      the connection is untouched. */
  lemma StartWebRTCSpec(s: SessionState, id: PeerId, chat: Channel, file: Channel, b: Browser)
    requires id !in s.textChannels ==> chat.name == "chat"
    requires id !in s.fileChannels ==> file.name == "file"
    ensures var r := StartWebRTC(s, id, chat, file, b); var pc0 := InitPeer(s, id).peers[id];
      && r.makingOffer[id] == false
      && RemoteDescription(r.peers[id]) == RemoteDescription(pc0)
      && r.peers[id].applied == pc0.applied
      && (pc0.signaling != HaveRemoteOffer ==>
            r.peers[id].signaling == HaveLocalOffer && LocalDescription(r.peers[id]) == Some(b.offer)
            && r.sent == s.sent + [OfferTo(id, b.offer)] && r.log == s.log)
      && (pc0.signaling == HaveRemoteOffer ==> r.sent == s.sent && r.log == s.log + [OfferFailed(id)])
  {
    var s1 := InitPeer(s, id);
    OpenMissingChannelsSpec(s1, id, chat, file);
    MakeOfferSpec(OpenMissingChannels(s1, id, chat, file), id, b);
    MakeOfferFrame(OpenMissingChannels(s1, id, chat, file), id, b);
  }

  lemma StartWebRTCValid(s: SessionState, id: PeerId, chat: Channel, file: Channel, b: Browser)
    requires Valid(s)
    requires id !in s.textChannels ==> chat.name == "chat"
    requires id !in s.fileChannels ==> file.name == "file"
    ensures Valid(StartWebRTC(s, id, chat, file, b))
  {
    var s1 := InitPeer(s, id);
    InitPeerValid(s, id);
    OpenMissingChannelsSpec(s1, id, chat, file);
    MakeOfferValid(OpenMissingChannels(s1, id, chat, file), id, b);
  }

  /** `connect`: the socket has its id; the own name is recorded and the
      room is joined with it. */
  function OnConnect(s: SessionState, username: string, id: SocketId, roomID: string): SessionState
  {
    var s1 := s.(myId := Some(id));
    var s2 := if username != "" then UpsertUser(s1, id, Some(username)) else s1;
    s2.(sent := s2.sent + [JoinRoomEmit(RoomObject(roomID, Some(username)))])
  }

  /** `user-connected`: record the newcomer and start a connection to it. */
  function OnUserConnected(s: SessionState, socketId: SocketId, name: Option<string>,
                           chat: Channel, file: Channel, b: Browser): SessionState
    requires socketId !in s.textChannels ==> chat.name == "chat"
    requires socketId !in s.fileChannels ==> file.name == "file"
  {
    StartWebRTC(UpsertUser(s, socketId, name), socketId, chat, file, b)
  }

  /** `onicecandidate`: every local candidate is sent to the peer; the
      end-of-candidates event (no candidate) sends nothing. */
  function OnLocalCandidate(s: SessionState, id: PeerId, c: Option<Candidate>): SessionState
  {
    if c.Some? then s.(sent := s.sent + [SignalEmit(SignalRequest(id, None, CandidatePayload(c.value)))]) else s
  }

  // ---------------------------------------------------------------------
  // ICE restart.

  function Pow2(n: nat): nat
  {
    if n == 0 then 1 else 2 * Pow2(n - 1)
  }

  /** `Math.min(1000 * Math.pow(2, attempts), 15000)`. */
  function BackoffDelay(attempts: nat): (d: nat)
    ensures d <= 15000
  {
    var d := 1000 * Pow2(attempts);
    if d < 15000 then d else 15000
  }

  /** The delays of the five permitted restarts. */
  lemma BackoffDelays()
    ensures [BackoffDelay(0), BackoffDelay(1), BackoffDelay(2), BackoffDelay(3), BackoffDelay(4)]
         == [1000, 2000, 4000, 8000, 15000]
  {
  }

  /** `scheduleIceRestart`: at the limit only a warning; while a restart is
      in flight nothing; otherwise one more attempt, the flag set, and a
      timer with the backed-off delay. */
  function ScheduleRestart(s: SessionState, id: PeerId): SessionState
  {
    var a := AttemptsOf(s, id);
    if a >= MaxRestarts then s.(log := s.log + [RestartLimit(id)])
    else if InFlight(s, id) then s
    else s.(attempts := s.attempts[id := a + 1], restarting := s.restarting[id := true],
            timers := s.timers + [Timer(id, BackoffDelay(a))])
  }

  /** `handleIceRestart`: with a connection, create and set a restarting
      offer and emit it; a failure is logged. The making-offer flag is not
      touched. */
  function HandleIceRestart(s: SessionState, id: PeerId, b: Browser): (r: SessionState)
    ensures r.(peers := s.peers, sent := s.sent, log := s.log) == s
  {
    if id !in s.peers then s
    else match SetLocalOffer(s.peers[id], b.offer)
      case Ok(pc) => s.(peers := s.peers[id := pc], sent := s.sent + [OfferTo(id, b.offer)])
      case Rejected => s.(log := s.log + [RestartFailed(id)])
  }

  /** The `i`-th pending timer fires: it leaves the pending set, the restart
      runs, and the in-flight flag is cleared in the `finally`. */
  function FireTimer(s: SessionState, i: nat, b: Browser): SessionState
    requires i < |s.timers|
  {
    var id := s.timers[i].peer;
    var s1 := s.(timers := s.timers[..i] + s.timers[i + 1..]);
    var s2 := HandleIceRestart(s1, id, b);
    s2.(restarting := s2.restarting[id := false])
  }

  /** `oniceconnectionstatechange`: connected or completed resets the
      attempts, failed schedules a restart, any other state does nothing. */
  function OnIceState(s: SessionState, id: PeerId, st: IceState): SessionState
  {
    if st == IceConnected || st == IceCompleted then s.(attempts := s.attempts[id := 0])
    else if st == IceFailed then ScheduleRestart(s, id)
    else s
  }

  /** The three cases of scheduling, and that nothing but attempts, flag,
      timers and log ever changes. */
  lemma ScheduleRestartSpec(s: SessionState, id: PeerId)
    ensures var r := ScheduleRestart(s, id); var a := AttemptsOf(s, id);
      && (a >= MaxRestarts ==> r == s.(log := s.log + [RestartLimit(id)]))
      && (a < MaxRestarts && InFlight(s, id) ==> r == s)
      && (a < MaxRestarts && !InFlight(s, id) ==>
            AttemptsOf(r, id) == a + 1 && InFlight(r, id) && r.timers == s.timers + [Timer(id, BackoffDelay(a))])
      && r.(attempts := s.attempts, restarting := s.restarting, timers := s.timers, log := s.log) == s
  {
  }

  /** One failure and its timer: a failure with `a < 5` attempts and no
      restart in flight schedules one timer with delay `BackoffDelay(a)`;
      a second failure before it fires schedules nothing; firing the timer
      clears the flag and counts the attempt, so the next failure waits
      `BackoffDelay(a + 1)`. */
  lemma RestartRound(s: SessionState, id: PeerId, b: Browser)
    requires AttemptsOf(s, id) < MaxRestarts && !InFlight(s, id)
    ensures var r := OnIceState(s, id, IceFailed);
      && r.timers == s.timers + [Timer(id, BackoffDelay(AttemptsOf(s, id)))]
      && OnIceState(r, id, IceFailed).timers == r.timers
      && var f := FireTimer(r, |s.timers|, b);
         f.timers == s.timers && !InFlight(f, id) && AttemptsOf(f, id) == AttemptsOf(s, id) + 1
  {
    var r := OnIceState(s, id, IceFailed);
    assert r.timers[..|s.timers|] + r.timers[|s.timers| + 1..] == s.timers;
  }

  /** After five attempts no failure schedules a restart, until a
      connected or completed state resets the count, after which the next
      failure waits one second. */
  lemma RestartLimitAndReset(s: SessionState, id: PeerId)
    ensures AttemptsOf(s, id) >= MaxRestarts ==> OnIceState(s, id, IceFailed).timers == s.timers
    ensures var c := OnIceState(s, id, IceConnected);
      AttemptsOf(c, id) == 0 && (!InFlight(c, id) ==> OnIceState(c, id, IceFailed).timers == s.timers + [Timer(id, 1000)])
  {
  }

  lemma ScheduleRestartValid(s: SessionState, id: PeerId)
    requires Valid(s)
    ensures Valid(ScheduleRestart(s, id))
  {
    var r := ScheduleRestart(s, id);
    if AttemptsOf(s, id) < MaxRestarts && !InFlight(s, id) {
      assert forall i :: 0 <= i < |s.timers| ==> s.timers[i].peer != id;
      forall k | InFlight(r, k) ensures HasTimer(r.timers, k) {
        if k == id {
          assert r.timers[|s.timers|].peer == id;
        } else {
          assert InFlight(s, k) && HasTimer(s.timers, k);
          var j :| 0 <= j < |s.timers| && s.timers[j].peer == k;
          assert r.timers[j].peer == k;
        }
      }
    }
  }

  lemma OnIceStateValid(s: SessionState, id: PeerId, st: IceState)
    requires Valid(s)
    ensures Valid(OnIceState(s, id, st))
  {
    if st == IceFailed { ScheduleRestartValid(s, id); }
  }

  lemma FireTimerValid(s: SessionState, i: nat, b: Browser)
    requires Valid(s) && i < |s.timers|
    ensures Valid(FireTimer(s, i, b))
  {
    var id := s.timers[i].peer;
    var s1 := s.(timers := s.timers[..i] + s.timers[i + 1..], restarting := s.restarting[id := false]);
    TimerDoneValid(s, i);
    HandleIceRestartValid(s1, id, b);
    FireTimerRestarts(s, i, b);
  }

  /** Firing a timer is the restart run on the state without the timer and
      its flag. */
  lemma FireTimerRestarts(s: SessionState, i: nat, b: Browser)
    requires i < |s.timers|
    ensures var id := s.timers[i].peer;
      FireTimer(s, i, b)
      == HandleIceRestart(s.(timers := s.timers[..i] + s.timers[i + 1..], restarting := s.restarting[id := false]), id, b)
  {
    var id := s.timers[i].peer;
    var s0 := s.(timers := s.timers[..i] + s.timers[i + 1..]);
    RestartKeepsFlags(s0, id, b, s.restarting[id := false]);
    assert s0.(restarting := s.restarting[id := false])
        == s.(timers := s.timers[..i] + s.timers[i + 1..], restarting := s.restarting[id := false]);
  }

  /** The restart itself never reads or writes the in-flight flags. */
  lemma RestartKeepsFlags(s: SessionState, id: PeerId, b: Browser, rs: map<PeerId, bool>)
    ensures HandleIceRestart(s.(restarting := rs), id, b) == HandleIceRestart(s, id, b).(restarting := rs)
  {
    if id in s.peers {
      if s.peers[id].signaling != HaveRemoteOffer {
        RestartSets(s, id, b);
        RestartSets(s.(restarting := rs), id, b);
      } else {
        RestartFails(s, id, b);
        RestartFails(s.(restarting := rs), id, b);
      }
    }
  }

  /** The state after a restart offer that could be set. */
  lemma RestartSets(s: SessionState, id: PeerId, b: Browser)
    requires id in s.peers && s.peers[id].signaling != HaveRemoteOffer
    ensures HandleIceRestart(s, id, b)
         == s.(peers := s.peers[id := SetLocalOffer(s.peers[id], b.offer).value], sent := s.sent + [OfferTo(id, b.offer)])
  {
  }

  /** The state after a restart offer the connection refused. */
  lemma RestartFails(s: SessionState, id: PeerId, b: Browser)
    requires id in s.peers && s.peers[id].signaling == HaveRemoteOffer
    ensures HandleIceRestart(s, id, b) == s.(log := s.log + [RestartFailed(id)])
  {
  }

  /** A fired timer leaves the pending set together with its flag. */
  lemma TimerDoneValid(s: SessionState, i: nat)
    requires Valid(s) && i < |s.timers|
    ensures var id := s.timers[i].peer;
      Valid(s.(timers := s.timers[..i] + s.timers[i + 1..], restarting := s.restarting[id := false]))
  {
    TimersAfterFire(s.restarting, s.timers, i);
  }

  lemma TimersAfterFire(restarting: map<PeerId, bool>, timers: seq<Timer>, i: nat)
    requires TimersMatch(restarting, timers) && i < |timers|
    ensures TimersMatch(restarting[timers[i].peer := false], timers[..i] + timers[i + 1..])
  {
    RemovedAt(timers, i);
    PendingAfterFire(restarting, timers, i);
  }

  /** The positions of a sequence with one element removed. */
  lemma RemovedAt<T>(a: seq<T>, i: nat)
    requires i < |a|
    ensures var r := a[..i] + a[i + 1..];
      |r| == |a| - 1 && forall j :: 0 <= j < |r| ==> r[j] == (if j < i then a[j] else a[j + 1])
  {
  }

  /** Every other flagged peer keeps its timer when one fires. */
  lemma PendingAfterFire(restarting: map<PeerId, bool>, timers: seq<Timer>, i: nat)
    requires TimersMatch(restarting, timers) && i < |timers|
    ensures var t := timers[..i] + timers[i + 1..];
      forall k :: Flagged(restarting[timers[i].peer := false], k) ==> HasTimer(t, k)
  {
    var id := timers[i].peer;
    var t := timers[..i] + timers[i + 1..];
    RemovedAt(timers, i);
    forall k | Flagged(restarting[id := false], k) ensures HasTimer(t, k) {
      assert k != id && Flagged(restarting, k) && HasTimer(timers, k);
      var j :| 0 <= j < |timers| && timers[j].peer == k;
      assert j != i;
      if j < i { assert t[j].peer == k; } else { assert t[j - 1].peer == k; }
    }
  }

  lemma HandleIceRestartValid(s: SessionState, id: PeerId, b: Browser)
    requires Valid(s)
    ensures Valid(HandleIceRestart(s, id, b))
  {
    if id in s.peers {
      var pc := s.peers[id];
      OperationsKeepWellFormed(pc, b.offer, "", {});
      if pc.signaling != HaveRemoteOffer {
        var pc1 := SetLocalOffer(pc, b.offer).value;
        WithPcValid(s, id, pc1);
        OutputsValid(WithPc(s, id, pc1), s.sent + [OfferTo(id, b.offer)], s.log);
      } else {
        OutputsValid(s, s.sent, s.log + [RestartFailed(id)]);
      }
    }
  }

  // ---------------------------------------------------------------------
  // Teardown.

  /** The effect cleanup: disconnect the socket, close every connection,
      and clear the peers, the queues and the flags. Channel registries,
      restart state, users and pending timers remain. */
  function Teardown(s: SessionState): SessionState
  {
    s.(myId := None, closed := s.closed + s.peers.Keys, peers := map[], queues := map[], makingOffer := map[])
  }

  /** Teardown closes every connection that was open, forgets all of them
      and is idempotent. */
  lemma TeardownSpec(s: SessionState)
    ensures var r := Teardown(s);
      && r.closed == s.closed + s.peers.Keys && r.peers == map[] && r.queues == map[] && r.makingOffer == map[]
      && r.myId == None && Teardown(r) == r
  {
  }

  lemma TeardownValid(s: SessionState)
    requires Valid(s)
    ensures Valid(Teardown(s))
  {
  }

  /** After teardown a restart timer that fires finds no connection and
      sends nothing, and a late signal sends nothing. */
  lemma NothingAfterTeardown(s: SessionState, i: nat, b: Browser, username: string, data: SignalData)
    ensures i < |s.timers| ==> FireTimer(Teardown(s), i, b).sent == s.sent && FireTimer(Teardown(s), i, b).peers == map[]
    ensures OnSignal(Teardown(s), username, data, b).sent == s.sent
  {
    SignalEmitsAtMostOneAnswer(Teardown(s), username, data, b);
  }
}
