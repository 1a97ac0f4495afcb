/** The room page as the object it is in the client: the refs' maps
    (connections, candidate queues, making-offer flags, restart counters and
    flags, channel registries) are fields that the handlers update in place,
    and the channel registries hold the channel objects themselves. Each
    handler's new state is the matching step of `Negotiation` applied to
    the old state, seen through `State()`, so every property proved there
    holds of the object. */
module ChatRoom {
  import opened Wrappers
  import opened Signaling
  import opened PeerTransport
  import opened Negotiation

  /** The registry of channel objects, seen as the channels' identities. */
  function Ids(m: map<PeerId, DataChannel>): map<PeerId, Channel>
  {
    map k | k in m :: m[k].id
  }

  lemma IdsUpdate(m: map<PeerId, DataChannel>, id: PeerId, dc: DataChannel)
    ensures Ids(m[id := dc]) == Ids(m)[id := dc.id]
  {
  }

  lemma IdsRemove(m: map<PeerId, DataChannel>, id: PeerId)
    ensures Ids(m - {id}) == Ids(m) - {id}
  {
  }

  /** No channel object is registered for two peers. */
  predicate Injective(m: map<PeerId, DataChannel>)
  {
    forall a, b :: a in m && b in m && m[a] == m[b] ==> a == b
  }

  /** How one branch of the `signal` handler ended. */
  datatype Flow = Fell | Returned | Threw

  function FlowOf(r: Step): Flow
  {
    match r
    case Continue(_) => Fell
    case Return(_) => Returned
    case Throw(_) => Threw
  }

  /** Viewing a peer right after storing an exchange for it gives that
      exchange back. */
  lemma ViewStore(s: SessionState, id: PeerId, x: Exchange)
    requires x.queue.Some? <==> id in s.queues
    ensures View(Store(s, id, x), id) == x
  {
  }

  /** A second store for the same peer overrides the first. */
  lemma StoreStore(s: SessionState, id: PeerId, x: Exchange, y: Exchange)
    requires x.queue.Some? == y.queue.Some?
    ensures Store(Store(s, id, x), id, y) == Store(s, id, y)
  {
    if x.queue.Some? {
      assert s.queues[id := x.queue.value][id := y.queue.value] == s.queues[id := y.queue.value];
    }
    assert s.peers[id := x.pc][id := y.pc] == s.peers[id := y.pc];
  }

  /** Changing a peer's connection and the outputs is storing the changed
      view. */
  lemma StoreChanged(s: SessionState, id: PeerId, pc: Pc, sent: seq<ClientEmit>)
    requires id in s.peers
    ensures Store(s, id, View(s, id).(pc := pc, sent := sent)) == s.(peers := s.peers[id := pc], sent := sent)
  {
    if id in s.queues {
      assert s.queues[id := s.queues[id]] == s.queues;
    }
  }

  /** `Envelope` as the three branches run one after the other, each only
      when the previous one fell through. */
  lemma EnvelopeStaged(x: Exchange, username: string, data: SignalData, polite: bool, making: bool, b: Browser)
    ensures var sig := data.signal;
      var r1 := if sig.offer.Some? then OfferBranch(x, username, data.sender, sig.offer.value, polite, making, b) else Continue(x);
      var r2 := if FlowOf(r1) == Fell && sig.answer.Some? then AnswerBranch(r1.x, data.sender, sig.answer.value, b) else r1;
      var r3 := if FlowOf(r2) == Fell && sig.candidate.Some? then CandidateBranch(r2.x, sig.candidate.value, b) else r2;
      Envelope(x, username, data, polite, making, b) == r3
  {
  }

  class Session {
    var myId: Option<SocketId>
    var users: map<SocketId, Option<string>>
    var peers: map<PeerId, Pc>
    var queues: map<PeerId, seq<Candidate>>
    var makingOffer: map<PeerId, bool>
    var attempts: map<PeerId, nat>
    var restarting: map<PeerId, bool>
    var textChannels: map<PeerId, DataChannel>
    var fileChannels: map<PeerId, DataChannel>
    var timers: seq<Timer>
    var sent: seq<ClientEmit>
    var log: seq<LogEntry>
    var closed: set<PeerId>
    var messages: seq<ChatMessage>
    /** How many times `startWebRTC` has run; it numbers the channels it
        creates. */
    var created: nat

    ghost function State(): SessionState
      reads this
    {
      SessionState(myId, users, peers, queues, makingOffer, attempts, restarting,
                   Ids(textChannels), Ids(fileChannels), timers, sent, log, closed, messages)
    }

    /** The session's invariant: the one the handlers' steps keep. */
    ghost predicate Valid()
      reads this
    {
      Negotiation.Valid(State())
    }

    constructor ()
      ensures State() == Initial && created == 0 && Valid()
    {
      myId, users, peers, queues, makingOffer := None, map[], map[], map[], map[];
      attempts, restarting, textChannels, fileChannels := map[], map[], map[], map[];
      timers, sent, log, closed, messages := [], [], [], {}, [];
      created := 0;
      InitialValid();
    }

    method UpsertUser(id: SocketId, name: Option<string>)
      modifies this
      ensures State() == Negotiation.UpsertUser(old(State()), id, name)
      ensures created == old(created) && textChannels == old(textChannels) && fileChannels == old(fileChannels)
    {
      users := users[id := name];
    }

    method DeleteUser(id: SocketId)
      modifies this
      ensures State() == Negotiation.DeleteUser(old(State()), id)
      ensures old(Valid()) ==> Valid()
      ensures textChannels == old(textChannels) && fileChannels == old(fileChannels) && created == old(created)
    {
      users := users - {id};
    }

    method InitPeerConnection(id: PeerId)
      modifies this
      ensures State() == InitPeer(old(State()), id)
      ensures created == old(created) && textChannels == old(textChannels) && fileChannels == old(fileChannels)
    {
      if id in peers {
        return;
      }
      peers := peers[id := NewPc];
      queues := queues[id := []];
      makingOffer := makingOffer[id := false];
    }

    /** `processQueuedCandidates`: the candidates are shifted off the front
        of the queue one at a time and added to the connection; a refused
        one is logged and the loop goes on. The handler runs as one step, so
        the connection, queue and log reached by the loop are stored when it
        ends. */
    method ProcessQueuedCandidates(id: PeerId, refused: set<Candidate>)
      modifies this
      ensures State() == Drain(old(State()), id, refused)
      ensures textChannels == old(textChannels) && fileChannels == old(fileChannels) && created == old(created)
    {
      if id !in peers {
        return;
      }
      if id !in queues {
        StoreView(State(), id);
        return;
      }
      ghost var x0 := View(State(), id);
      var pc, queue, failures := peers[id], queues[id], log;
      while queue != []
        invariant DrainQueue(Exchange(pc, Some(queue), sent, failures), id, refused) == DrainQueue(x0, id, refused)
        decreases |queue|
      {
        var c := queue[0];
        queue := queue[1..];
        match AddCandidate(pc, c, refused) {
          case Ok(pc1) =>
            pc := pc1;
          case Rejected =>
            failures := failures + [CandidateFailed(id, c)];
        }
      }
      peers := peers[id := pc];
      queues := queues[id := queue];
      log := failures;
    }

    /** The offer branch of the `signal` handler: an impolite side drops a
        colliding offer; otherwise it rolls back if colliding, sets the
        offer, creates and sets the answer, emits it and drains the queue. */
    method OfferPart(username: string, sender: PeerId, offer: Sdp, polite: bool, making: bool, b: Browser)
      returns (flow: Flow)
      requires sender in peers
      modifies this
      ensures var r := OfferBranch(View(old(State()), sender), username, sender, offer, polite, making, b);
        State() == Store(old(State()), sender, r.x) && flow == FlowOf(r)
      ensures textChannels == old(textChannels) && fileChannels == old(fileChannels) && created == old(created)
    {
      var pc := peers[sender];
      var collision := pc.signaling != Stable || making;
      if collision && !polite {
        StoreView(State(), sender);
        return Returned;
      }
      if collision {
        match Rollback(pc) {
          case Rejected =>
            StoreView(State(), sender);
            return Threw;
          case Ok(rolled) =>
            pc := rolled;
        }
      }
      // Stable now, so neither description can be refused.
      var withOffer := SetRemoteOffer(pc, offer).value;
      var answered := SetLocalAnswer(withOffer, b.answer).value;
      ghost var s0, x := State(), View(State(), sender);
      ghost var x1 := x.(pc := answered, sent := x.sent + [AnswerTo(sender, username, b.answer)]);
      assert OfferBranch(x, username, sender, offer, polite, making, b) == Continue(DrainQueue(x1, sender, b.refused));
      peers := peers[sender := answered];
      sent := sent + [AnswerTo(sender, username, b.answer)];
      StoreChanged(s0, sender, x1.pc, x1.sent);
      ghost var mid := State();
      assert mid == Store(s0, sender, x1);
      ViewStore(s0, sender, x1);
      ProcessQueuedCandidates(sender, b.refused);
      assert State() == Store(mid, sender, DrainQueue(x1, sender, b.refused));
      StoreStore(s0, sender, x1, DrainQueue(x1, sender, b.refused));
      flow := Fell;
    }

    /** The answer branch: set the answer, then drain the queue. */
    method AnswerPart(sender: PeerId, answer: Sdp, b: Browser) returns (flow: Flow)
      requires sender in peers
      modifies this
      ensures var r := AnswerBranch(View(old(State()), sender), sender, answer, b);
        State() == Store(old(State()), sender, r.x) && flow == FlowOf(r)
      ensures textChannels == old(textChannels) && fileChannels == old(fileChannels) && created == old(created)
    {
      ghost var s0, x := State(), View(State(), sender);
      match SetRemoteAnswer(peers[sender], answer) {
        case Rejected =>
          StoreView(s0, sender);
          flow := Threw;
        case Ok(pc) =>
          peers := peers[sender := pc];
          StoreChanged(s0, sender, pc, sent);
          ghost var s1 := State();
          assert s1 == Store(s0, sender, x.(pc := pc));
          ViewStore(s0, sender, x.(pc := pc));
          ProcessQueuedCandidates(sender, b.refused);
          assert State() == Drain(s1, sender, b.refused);
          StoreStore(s0, sender, x.(pc := pc), DrainQueue(x.(pc := pc), sender, b.refused));
          flow := Fell;
      }
    }

    /** The candidate branch: queue the candidate while there is no remote
        description (returning if the peer has no queue), otherwise add it
        at once. */
    method CandidatePart(sender: PeerId, c: Candidate, b: Browser) returns (flow: Flow)
      requires sender in peers
      modifies this
      ensures var r := CandidateBranch(View(old(State()), sender), c, b);
        State() == Store(old(State()), sender, r.x) && flow == FlowOf(r)
      ensures textChannels == old(textChannels) && fileChannels == old(fileChannels) && created == old(created)
    {
      ghost var s0 := State();
      var pc := peers[sender];
      if RemoteDescription(pc).None? {
        if sender !in queues {
          StoreView(s0, sender);
          return Returned;
        }
        queues := queues[sender := queues[sender] + [c]];
        assert s0.peers[sender := pc] == s0.peers;
        return Fell;
      }
      match AddCandidate(pc, c, b.refused) {
        case Rejected =>
          StoreView(s0, sender);
          flow := Threw;
        case Ok(pc1) =>
          peers := peers[sender := pc1];
          StoreChanged(s0, sender, pc1, sent);
          flow := Fell;
      }
    }

    /** The `try` block of the `signal` handler: the offer, answer and
        candidate branches in order, each run only if the previous one fell
        through. */
    method TryBlock(username: string, data: SignalData, polite: bool, making: bool, b: Browser) returns (flow: Flow)
      requires data.sender in peers
      modifies this
      ensures var r := Envelope(View(old(State()), data.sender), username, data, polite, making, b);
        State() == Store(old(State()), data.sender, r.x) && flow == FlowOf(r)
      ensures textChannels == old(textChannels) && fileChannels == old(fileChannels) && created == old(created)
    {
      var sender, sig := data.sender, data.signal;
      ghost var s0, x := State(), View(State(), data.sender);
      ghost var r: Step := Continue(x);
      EnvelopeStaged(x, username, data, polite, making, b);
      StoreView(s0, sender);
      flow := Fell;
      if sig.offer.Some? {
        flow := OfferPart(username, sender, sig.offer.value, polite, making, b);
        r := OfferBranch(x, username, sender, sig.offer.value, polite, making, b);
      }
      if flow == Fell && sig.answer.Some? {
        ViewStore(s0, sender, r.x);
        flow := AnswerPart(sender, sig.answer.value, b);
        ghost var r2 := AnswerBranch(r.x, sender, sig.answer.value, b);
        StoreStore(s0, sender, r.x, r2.x);
        r := r2;
      }
      if flow == Fell && sig.candidate.Some? {
        ViewStore(s0, sender, r.x);
        flow := CandidatePart(sender, sig.candidate.value, b);
        ghost var r3 := CandidateBranch(r.x, sig.candidate.value, b);
        StoreStore(s0, sender, r.x, r3.x);
        r := r3;
      }
    }

    /** The `signal` handler: record the sender's name if it came with one,
        initialise the peer, stop with a warning if the socket has no id,
        run the `try` block with this side's politeness and making-offer
        flag, and log whatever it throws. */
    method SignalHandler(username: string, data: SignalData, b: Browser)
      modifies this
      ensures State() == Negotiation.OnSignal(old(State()), username, data, b)
      ensures textChannels == old(textChannels) && fileChannels == old(fileChannels) && created == old(created)
    {
      if Truthy(data.senderName) {
        UpsertUser(data.sender, data.senderName);
      }
      InitPeerConnection(data.sender);
      ghost var s1 := State();
      assert s1 == Prepare(old(State()), data);
      if !Truthy(myId) {
        log := log + [SocketMissing];
        return;
      }
      var polite := IsPolite(myId.value, data.sender);
      var making := data.sender in makingOffer && makingOffer[data.sender];
      ghost var e := Envelope(View(s1, data.sender), username, data, polite, making, b);
      assert Negotiation.OnSignal(old(State()), username, data, b) == Store(s1, data.sender, Caught(e, data.sender));
      var flow := TryBlock(username, data, polite, making, b);
      if flow == Threw {
        log := log + [SignalingError(data.sender)];
      }
    }

    /** A `signal` event: the handler runs and the invariant is kept. */
    method OnSignal(username: string, data: SignalData, b: Browser)
      modifies this
      ensures State() == Negotiation.OnSignal(old(State()), username, data, b)
      ensures old(Valid()) ==> Valid()
      ensures textChannels == old(textChannels) && fileChannels == old(fileChannels) && created == old(created)
    {
      ghost var s := State();
      SignalHandler(username, data, b);
      if Negotiation.Valid(s) {
        OnSignalValid(s, username, data, b);
      }
    }

    // -------------------------------------------------------------------
    // Data channels.

    /** `setupDataChannel`: a channel labelled "chat" or "file" becomes the
        peer's registered channel of that kind. */
    method SetupDataChannel(id: PeerId, dc: DataChannel)
      modifies this
      ensures State() == RegisterChannel(old(State()), id, dc.id)
      ensures old(Valid()) ==> Valid()
      ensures textChannels == (if dc.id.name == "chat" then old(textChannels)[id := dc] else old(textChannels))
      ensures fileChannels == (if dc.id.name == "file" then old(fileChannels)[id := dc] else old(fileChannels))
      ensures created == old(created)
    {
      if Valid() {
        RegisterChannelLabelled(State(), id, dc.id);
      }
      if dc.id.name == "chat" {
        IdsUpdate(textChannels, id, dc);
        textChannels := textChannels[id := dc];
      }
      if dc.id.name == "file" {
        IdsUpdate(fileChannels, id, dc);
        fileChannels := fileChannels[id := dc];
      }
    }

    /** A channel's `onclose`: the peer leaves both registries. */
    method ChannelClosed(id: PeerId)
      modifies this
      ensures State() == Negotiation.ChannelClosed(old(State()), id)
      ensures old(Valid()) ==> Valid()
      ensures textChannels == old(textChannels) - {id} && fileChannels == old(fileChannels) - {id}
      ensures created == old(created)
    {
      IdsRemove(textChannels, id);
      IdsRemove(fileChannels, id);
      textChannels := textChannels - {id};
      fileChannels := fileChannels - {id};
    }

    /** A channel's `onmessage` with a string: on a "chat" channel the
        message joins the list; other channels do nothing with it. */
    method OnChatMessage(id: PeerId, dc: DataChannel, p: ChatPayload, uuid: string)
      modifies this
      ensures State() == if dc.id.name == "chat" then ChatReceived(old(State()), id, p, uuid) else old(State())
      ensures old(Valid()) ==> Valid()
      ensures textChannels == old(textChannels) && fileChannels == old(fileChannels) && created == old(created)
    {
      if dc.id.name == "chat" {
        var name := if id in users && users[id].Some? then users[id].value else id;
        messages := messages + [TextMessage(uuid, id, name, p.msg, p.ts)];
      }
    }

    // -------------------------------------------------------------------
    // startWebRTC.

    /** Creates a channel labelled `name` on the peer's connection
        and sets it up. */
    method OpenChannel(id: PeerId, name: string, n: nat) returns (dc: DataChannel)
      requires id in peers
      modifies this
      ensures State() == Negotiation.OpenChannel(old(State()), id, Channel(name, n))
      ensures fresh(dc) && dc.id == Channel(name, n)
      ensures textChannels == (if name == "chat" then old(textChannels)[id := dc] else old(textChannels))
      ensures fileChannels == (if name == "file" then old(fileChannels)[id := dc] else old(fileChannels))
      ensures created == old(created)
    {
      peers := peers[id := CreateDataChannel(peers[id], name)];
      dc := new DataChannel(Channel(name, n));
      SetupDataChannel(id, dc);
    }

    /** The `try`/`finally` of `startWebRTC`: raise the flag, try the
        offer, lower the flag. */
    method MakeOffer(id: PeerId, b: Browser)
      requires id in peers
      modifies this
      ensures State() == Negotiation.MakeOffer(old(State()), id, b)
      ensures created == old(created) && textChannels == old(textChannels) && fileChannels == old(fileChannels)
    {
      makingOffer := makingOffer[id := true];
      TryOffer(id, b);
      makingOffer := makingOffer[id := false];
    }

    /** The `try` block: create and set an offer and emit it; a refusal is
        logged by the `catch`. */
    method TryOffer(id: PeerId, b: Browser)
      requires id in peers
      modifies this
      ensures State() == Negotiation.TryOffer(old(State()), id, b)
      ensures created == old(created) && textChannels == old(textChannels) && fileChannels == old(fileChannels)
    {
      match SetLocalOffer(peers[id], b.offer) {
        case Ok(pc) =>
          peers := peers[id := pc];
          sent := sent + [OfferTo(id, b.offer)];
        case Rejected =>
          log := log + [OfferFailed(id)];
      }
    }

    /** Creates and sets up each of the "chat" and "file" channels that is
        not registered for the peer yet. */
    method OpenMissingChannels(id: PeerId, n: nat)
      requires id in peers
      modifies this
      ensures State() == Negotiation.OpenMissingChannels(old(State()), id, Channel("chat", n), Channel("file", n))
      ensures id in peers && created == old(created)
      ensures id in old(textChannels) ==> textChannels == old(textChannels)
      ensures id !in old(textChannels) ==>
        id in textChannels && fresh(textChannels[id]) && textChannels == old(textChannels)[id := textChannels[id]]
      ensures id in old(fileChannels) ==> fileChannels == old(fileChannels)
      ensures id !in old(fileChannels) ==>
        id in fileChannels && fresh(fileChannels[id]) && fileChannels == old(fileChannels)[id := fileChannels[id]]
    {
      if id !in textChannels {
        var chat := OpenChannel(id, "chat", n);
      }
      if id !in fileChannels {
        LabelsDiffer();
        var file := OpenChannel(id, "file", n);
      }
    }

    /** `startWebRTC`: initialise the peer, create the channels that are
        missing, then make an offer. */
    method StartWebRTC(id: PeerId, b: Browser)
      modifies this
      ensures State() == Negotiation.StartWebRTC(old(State()), id, Channel("chat", old(created)), Channel("file", old(created)), b)
      ensures old(Valid()) ==> Valid()
      ensures created == old(created) + 1
      ensures id in old(textChannels) ==> textChannels == old(textChannels)
      ensures id !in old(textChannels) ==>
        id in textChannels && fresh(textChannels[id]) && textChannels == old(textChannels)[id := textChannels[id]]
      ensures id in old(fileChannels) ==> fileChannels == old(fileChannels)
      ensures id !in old(fileChannels) ==>
        id in fileChannels && fresh(fileChannels[id]) && fileChannels == old(fileChannels)[id := fileChannels[id]]
    {
      if Valid() {
        StartWebRTCValid(State(), id, Channel("chat", created), Channel("file", created), b);
      }
      InitPeerConnection(id);
      var n := created;
      created := created + 1;
      OpenMissingChannels(id, n);
      MakeOffer(id, b);
    }

    // -------------------------------------------------------------------
    // Socket events.

    /** `connect`: keep the id, record the own name, join the room. */
    method OnConnect(username: string, id: SocketId, roomID: string)
      modifies this
      ensures State() == Negotiation.OnConnect(old(State()), username, id, roomID)
      ensures old(Valid()) ==> Valid()
      ensures textChannels == old(textChannels) && fileChannels == old(fileChannels) && created == old(created)
    {
      myId := Some(id);
      if username != "" {
        users := users[id := Some(username)];
      }
      sent := sent + [JoinRoomEmit(RoomObject(roomID, Some(username)))];
    }

    /** `user-connected`: record the newcomer and start a connection. */
    method OnUserConnected(socketId: SocketId, name: Option<string>, b: Browser)
      modifies this
      ensures State() == Negotiation.OnUserConnected(old(State()), socketId, name,
                                                   Channel("chat", old(created)), Channel("file", old(created)), b)
      ensures old(Valid()) ==> Valid()
      ensures created == old(created) + 1
      ensures socketId in old(textChannels) ==> textChannels == old(textChannels)
      ensures socketId !in old(textChannels) ==>
        socketId in textChannels && fresh(textChannels[socketId])
        && textChannels == old(textChannels)[socketId := textChannels[socketId]]
      ensures socketId in old(fileChannels) ==> fileChannels == old(fileChannels)
      ensures socketId !in old(fileChannels) ==>
        socketId in fileChannels && fresh(fileChannels[socketId])
        && fileChannels == old(fileChannels)[socketId := fileChannels[socketId]]
    {
      if Valid() {
        UpsertUserValid(State(), socketId, name);
      }
      UpsertUser(socketId, name);
      StartWebRTC(socketId, b);
    }

    /** `onicecandidate`. */
    method OnLocalCandidate(id: PeerId, c: Option<Candidate>)
      modifies this
      ensures State() == Negotiation.OnLocalCandidate(old(State()), id, c)
      ensures old(Valid()) ==> Valid()
      ensures textChannels == old(textChannels) && fileChannels == old(fileChannels) && created == old(created)
    {
      if c.Some? {
        sent := sent + [SignalEmit(SignalRequest(id, None, CandidatePayload(c.value)))];
      }
    }

    // -------------------------------------------------------------------
    // ICE restart.

    /** `oniceconnectionstatechange`. */
    method OnIceState(id: PeerId, st: IceState)
      modifies this
      ensures State() == Negotiation.OnIceState(old(State()), id, st)
      ensures old(Valid()) ==> Valid()
      ensures textChannels == old(textChannels) && fileChannels == old(fileChannels) && created == old(created)
    {
      if Valid() {
        OnIceStateValid(State(), id, st);
      }
      if st == IceConnected || st == IceCompleted {
        attempts := attempts[id := 0];
      } else if st == IceFailed {
        ScheduleIceRestart(id);
      }
    }

    /** `scheduleIceRestart`. */
    method ScheduleIceRestart(id: PeerId)
      modifies this
      ensures State() == ScheduleRestart(old(State()), id)
      ensures textChannels == old(textChannels) && fileChannels == old(fileChannels) && created == old(created)
    {
      var a := if id in attempts then attempts[id] else 0;
      if a >= MaxRestarts {
        log := log + [RestartLimit(id)];
        return;
      }
      if id in restarting && restarting[id] {
        return;
      }
      attempts := attempts[id := a + 1];
      restarting := restarting[id := true];
      timers := timers + [Timer(id, BackoffDelay(a))];
    }

    /** `handleIceRestart`. */
    method HandleIceRestart(id: PeerId, b: Browser)
      modifies this
      ensures State() == Negotiation.HandleIceRestart(old(State()), id, b)
      ensures textChannels == old(textChannels) && fileChannels == old(fileChannels) && created == old(created)
    {
      if id !in peers {
        return;
      }
      match SetLocalOffer(peers[id], b.offer) {
        case Ok(pc) =>
          peers := peers[id := pc];
          sent := sent + [OfferTo(id, b.offer)];
        case Rejected =>
          log := log + [RestartFailed(id)];
      }
    }

    /** The `i`-th pending restart timeout fires: it is no longer pending,
        the restart runs, and the in-flight flag is cleared in `finally`. */
    method FireTimer(i: nat, b: Browser)
      requires i < |timers|
      modifies this
      ensures State() == Negotiation.FireTimer(old(State()), i, b)
      ensures old(Valid()) ==> Valid()
      ensures textChannels == old(textChannels) && fileChannels == old(fileChannels) && created == old(created)
    {
      if Valid() {
        FireTimerValid(State(), i, b);
      }
      var id := timers[i].peer;
      timers := timers[..i] + timers[i + 1..];
      HandleIceRestart(id, b);
      restarting := restarting[id := false];
    }

    // -------------------------------------------------------------------
    // Teardown and sending.

    /** `pc.close()` on every connection, in turn: the closed connections
        so far together with every current one. */
    method CloseAll() returns (shut: set<PeerId>)
      ensures shut == closed + peers.Keys
    {
      shut := closed;
      var open := peers.Keys;
      while open != {}
        invariant open <= peers.Keys && shut == closed + (peers.Keys - open)
        decreases open
      {
        var k :| k in open;
        shut := shut + {k};
        open := open - {k};
      }
    }

    /** The effect cleanup: disconnect the socket, close every connection,
        clear the peers, the queues and the flags. */
    method Teardown()
      modifies this
      ensures State() == Negotiation.Teardown(old(State()))
      ensures old(Valid()) ==> Valid()
      ensures textChannels == old(textChannels) && fileChannels == old(fileChannels) && created == old(created)
    {
      ghost var s := State();
      var shut := CloseAll();
      assert shut == s.closed + s.peers.Keys;
      myId, closed, peers, queues, makingOffer := None, shut, map[], map[], map[];
      assert State() == Negotiation.Teardown(s);
      if Negotiation.Valid(s) {
        TeardownValid(s);
      }
    }

    /** `sendChat`: with an id and a name, the message joins the list and
        its payload is sent on every registered chat channel that is open.
        When no channel object is registered for two peers, each open one
        gets the payload exactly once and every other one nothing. */
    method SendChat(username: string, msg: string, ts: int, uuid: string)
      modifies this, textChannels.Values
      ensures State() == Negotiation.SendChat(old(State()), username, msg, ts, uuid)
      ensures old(Valid()) ==> Valid()
      ensures textChannels == old(textChannels) && fileChannels == old(fileChannels) && created == old(created)
      ensures forall k :: k in textChannels ==> textChannels[k].readyState == old(textChannels[k].readyState)
      ensures !Truthy(old(myId)) || username == "" ==>
        forall k :: k in textChannels ==> textChannels[k].sent == old(textChannels[k].sent)
      ensures Truthy(old(myId)) && username != "" && Injective(textChannels) ==>
        forall k :: k in textChannels ==>
          textChannels[k].sent == old(textChannels[k].sent) + (if textChannels[k].readyState == Open then [ChatPayload(msg, ts)] else [])
    {
      if !Truthy(myId) || username == "" {
        return;
      }
      ghost var s := State();
      var payload := ChatPayload(msg, ts);
      messages := messages + [TextMessage(uuid, myId.value, username, msg, ts)];
      assert State() == Negotiation.SendChat(s, username, msg, ts, uuid);
      var todo := textChannels.Keys;
      while todo != {}
        modifies textChannels.Values
        invariant todo <= textChannels.Keys
        invariant forall k :: k in textChannels ==> textChannels[k].readyState == old(textChannels[k].readyState)
        invariant Injective(textChannels) ==> forall k :: k in todo ==> textChannels[k].sent == old(textChannels[k].sent)
        invariant Injective(textChannels) ==> forall k :: k in textChannels && k !in todo ==>
          textChannels[k].sent == old(textChannels[k].sent) + (if textChannels[k].readyState == Open then [payload] else [])
        decreases todo
      {
        var k :| k in todo;
        var dc := textChannels[k];
        if dc.readyState == Open {
          dc.Send(payload);
        }
        todo := todo - {k};
      }
    }
  }
}
