/** The signaling relay: a directory of rooms over the socket.io adapter and
    three handlers, `join-room`, `signal` and `disconnect`.

    The adapter is a map from room name to member ids. As in socket.io, every
    connection is also a member of a room named after its own id, which is
    what `io.to(target)` addresses. Emits are appended to an outbox; each
    entry is one emit with the set of connections it reaches. */
module Relay {
  import opened Wrappers
  import opened Signaling

  /** `socket.data`: what the relay records on a connection at join time. */
  datatype SocketData = SocketData(roomId: Option<string>, userId: Option<SocketId>, userName: Option<string>)

  /** One emit and the connections it reaches. */
  datatype Emit = Emit(to: set<SocketId>, event: ServerEvent)

  /** The adapter's rooms, the live connections with their data, and every
      emit so far. */
  datatype RelayState = RelayState(rooms: map<string, set<SocketId>>, sockets: map<SocketId, SocketData>, outbox: seq<Emit>)

  /** The members of a room; a room that is not in the adapter has none. */
  function Members(rooms: map<string, set<SocketId>>, room: string): set<SocketId>
  {
    if room in rooms then rooms[room] else {}
  }

  /** `socket.join(room)`. */
  function AddMember(rooms: map<string, set<SocketId>>, room: string, sid: SocketId): map<string, set<SocketId>>
  {
    rooms[room := Members(rooms, room) + {sid}]
  }

  /** What socket.io does when a connection closes, before the `disconnect`
      handler runs: it leaves every room, and rooms left empty disappear. */
  function LeaveAll(rooms: map<string, set<SocketId>>, sid: SocketId): (r: map<string, set<SocketId>>)
    ensures forall room :: Members(r, room) == Members(rooms, room) - {sid}
    ensures forall room :: room in r ==> r[room] != {}
  {
    map room | room in rooms && rooms[room] - {sid} != {} :: rooms[room] - {sid}
  }

  /** An emit to a set of connections; an emit that reaches nobody sends
      nothing. */
  function Send(outbox: seq<Emit>, to: set<SocketId>, event: ServerEvent): seq<Emit>
  {
    if to == {} then outbox else outbox + [Emit(to, event)]
  }

  /** The events connection `p` has received, in emit order. */
  function Received(outbox: seq<Emit>, p: SocketId): seq<ServerEvent>
  {
    if outbox == [] then []
    else
      var last := outbox[|outbox| - 1];
      Received(outbox[..|outbox| - 1], p) + (if p in last.to then [last.event] else [])
  }

  /** An emit adds its event to the inbox of exactly the connections it
      reaches, once each. */
  lemma ReceivedSend(outbox: seq<Emit>, to: set<SocketId>, event: ServerEvent, p: SocketId)
    ensures Received(Send(outbox, to, event), p) == Received(outbox, p) + (if p in to then [event] else [])
  {
    if to != {} {
      assert (outbox + [Emit(to, event)])[..|outbox|] == outbox;
    }
  }

  /** Rooms are non-empty sets of live connections. */
  ghost predicate RoomsLive(rooms: map<string, set<SocketId>>, sockets: map<SocketId, SocketData>)
  {
    forall room :: room in rooms ==> rooms[room] != {} && rooms[room] <= sockets.Keys
  }

  /** Every live connection has a non-empty id and is in its own room. */
  ghost predicate OwnRooms(rooms: map<string, set<SocketId>>, sockets: map<SocketId, SocketData>)
  {
    forall sid :: sid in sockets ==> sid != "" && sid in Members(rooms, sid)
  }

  /** A connection that has joined records its own id and is a member of
      the room it recorded. */
  ghost predicate JoinRecorded(rooms: map<string, set<SocketId>>, sid: SocketId, d: SocketData)
  {
    && (d.userId.Some? <==> d.roomId.Some?)
    && (d.userId.Some? ==> d.userId.value == sid && sid in Members(rooms, d.roomId.value))
  }

  ghost predicate JoinsRecorded(rooms: map<string, set<SocketId>>, sockets: map<SocketId, SocketData>)
  {
    forall sid :: sid in sockets ==> JoinRecorded(rooms, sid, sockets[sid])
  }

  ghost predicate Directory(rooms: map<string, set<SocketId>>, sockets: map<SocketId, SocketData>)
  {
    RoomsLive(rooms, sockets) && OwnRooms(rooms, sockets) && JoinsRecorded(rooms, sockets)
  }

  /** The relay's invariant. */
  ghost predicate Valid(s: RelayState)
  {
    Directory(s.rooms, s.sockets)
  }

  const Empty: RelayState := RelayState(map[], map[], [])

  lemma EmptyValid()
    ensures Valid(Empty)
  {
  }

  /** A new connection: socket.io gives it an id and puts it in the room of
      that id; `socket.data` starts empty. */
  function Connect(s: RelayState, sid: SocketId): RelayState
    requires sid !in s.sockets
  {
    s.(rooms := AddMember(s.rooms, sid, sid), sockets := s.sockets[sid := SocketData(None, None, None)])
  }

  /** The room id and user name carried by a `join-room` argument; a bare
      string carries no name. */
  function RoomOf(v: JoinValue): string
  {
    match v
    case RoomName(room) => room
    case RoomObject(roomID, _) => roomID
  }

  function NameOf(v: JoinValue): Option<string>
  {
    match v
    case RoomName(_) => None
    case RoomObject(_, username) => username
  }

  /** `socket.to(room).emit(..)`: socket.io broadcasts to the members of
      `room` except those of the room named after the emitting connection's
      id, that is the connection itself and whoever joined a room of that
      name. */
  function BroadcastFrom(rooms: map<string, set<SocketId>>, sid: SocketId, room: string): set<SocketId>
  {
    Members(rooms, room) - Members(rooms, sid)
  }

  /** The `join-room` handler: join the room, record room, id and name on
      the connection, and, unless the joiner is alone, broadcast to the
      room from the joiner. */
  function JoinRoom(s: RelayState, sid: SocketId, v: JoinValue): RelayState
    requires sid in s.sockets
  {
    var roomID, username := RoomOf(v), NameOf(v);
    var rooms := AddMember(s.rooms, roomID, sid);
    var sockets := s.sockets[sid := SocketData(Some(roomID), Some(sid), username)];
    var room := rooms[roomID];
    if |room| <= 1 then RelayState(rooms, sockets, s.outbox)
    else RelayState(rooms, sockets, Send(s.outbox, BroadcastFrom(rooms, sid, roomID), UserConnected(sid, username)))
  }

  /** The `signal` handler: forward the payload, stamped with the caller's id
      and recorded name, to the room named by the target. */
  function Signal(s: RelayState, sid: SocketId, req: SignalRequest): RelayState
    requires sid in s.sockets
  {
    var data := SignalData(sid, s.sockets[sid].userName, req.signal);
    s.(outbox := Send(s.outbox, Members(s.rooms, req.target), SignalEvent(data)))
  }

  /** The `disconnect` handler, after socket.io has removed the connection
      from its rooms: if it had joined, broadcast to its room from it. */
  function Disconnect(s: RelayState, sid: SocketId): RelayState
    requires sid in s.sockets
  {
    var d := s.sockets[sid];
    var rooms := LeaveAll(s.rooms, sid);
    var sockets := s.sockets - {sid};
    if Truthy(d.roomId) && Truthy(d.userId) then
      RelayState(rooms, sockets, Send(s.outbox, BroadcastFrom(rooms, sid, d.roomId.value), UserDisconnect(d.userId.value)))
    else
      RelayState(rooms, sockets, s.outbox)
  }

  // ---------------------------------------------------------------------
  // The invariant is kept by every handler.

  /** Joining a room, with the record a join leaves, keeps the directory
      consistent. */
  lemma AddMemberKeepsDirectory(rooms: map<string, set<SocketId>>, sockets: map<SocketId, SocketData>,
                                room: string, sid: SocketId, d: SocketData)
    requires Directory(rooms, sockets) && sid in sockets
    requires JoinRecorded(AddMember(rooms, room, sid), sid, d)
    ensures Directory(AddMember(rooms, room, sid), sockets[sid := d])
  {
    AddMemberKeepsRoomsLive(rooms, sockets, room, sid, d);
    AddMemberKeepsOwnRooms(rooms, sockets, room, sid, d);
    AddMemberKeepsJoins(rooms, sockets, room, sid, d);
  }

  lemma AddMemberKeepsRoomsLive(rooms: map<string, set<SocketId>>, sockets: map<SocketId, SocketData>,
                                room: string, sid: SocketId, d: SocketData)
    requires RoomsLive(rooms, sockets) && sid in sockets
    ensures RoomsLive(AddMember(rooms, room, sid), sockets[sid := d])
  {
    var rooms', sockets' := AddMember(rooms, room, sid), sockets[sid := d];
    assert sockets'.Keys == sockets.Keys;
    forall r | r in rooms' ensures rooms'[r] != {} && rooms'[r] <= sockets'.Keys {
      if r != room { assert rooms'[r] == rooms[r]; }
    }
  }

  lemma AddMemberKeepsOwnRooms(rooms: map<string, set<SocketId>>, sockets: map<SocketId, SocketData>,
                               room: string, sid: SocketId, d: SocketData)
    requires OwnRooms(rooms, sockets) && sid in sockets
    ensures OwnRooms(AddMember(rooms, room, sid), sockets[sid := d])
  {
    var rooms', sockets' := AddMember(rooms, room, sid), sockets[sid := d];
    forall x | x in sockets' ensures x != "" && x in Members(rooms', x) {
      assert x in Members(rooms, x);
    }
  }

  lemma AddMemberKeepsJoins(rooms: map<string, set<SocketId>>, sockets: map<SocketId, SocketData>,
                            room: string, sid: SocketId, d: SocketData)
    requires JoinsRecorded(rooms, sockets) && sid in sockets
    requires JoinRecorded(AddMember(rooms, room, sid), sid, d)
    ensures JoinsRecorded(AddMember(rooms, room, sid), sockets[sid := d])
  {
    var rooms', sockets' := AddMember(rooms, room, sid), sockets[sid := d];
    forall x | x in sockets' ensures JoinRecorded(rooms', x, sockets'[x]) {
      if x != sid {
        assert JoinRecorded(rooms, x, sockets[x]);
        assert Members(rooms, room) <= Members(rooms', room);
      }
    }
  }

  lemma ConnectValid(s: RelayState, sid: SocketId)
    requires Valid(s) && sid !in s.sockets && sid != ""
    ensures Valid(Connect(s, sid))
  {
    var rooms', sockets' := AddMember(s.rooms, sid, sid), s.sockets[sid := SocketData(None, None, None)];
    assert forall r :: Members(s.rooms, r) <= Members(rooms', r);
    assert RoomsLive(rooms', sockets') by {
      forall r | r in rooms' ensures rooms'[r] != {} && rooms'[r] <= sockets'.Keys {
        if r != sid { assert rooms'[r] == s.rooms[r]; }
      }
    }
    assert OwnRooms(rooms', sockets') by {
      forall x | x in sockets' ensures x != "" && x in Members(rooms', x) {
        if x != sid { assert x in Members(s.rooms, x); }
      }
    }
    assert JoinsRecorded(rooms', sockets') by {
      forall x | x in sockets' ensures JoinRecorded(rooms', x, sockets'[x]) {
        if x != sid { assert JoinRecorded(s.rooms, x, s.sockets[x]); }
      }
    }
  }

  lemma JoinRoomValid(s: RelayState, sid: SocketId, v: JoinValue)
    requires Valid(s) && sid in s.sockets
    ensures Valid(JoinRoom(s, sid, v))
  {
    var d := SocketData(Some(RoomOf(v)), Some(sid), NameOf(v));
    AddMemberKeepsDirectory(s.rooms, s.sockets, RoomOf(v), sid, d);
  }

  lemma SignalValid(s: RelayState, sid: SocketId, req: SignalRequest)
    requires Valid(s) && sid in s.sockets
    ensures Valid(Signal(s, sid, req))
  {
  }

  lemma DisconnectValid(s: RelayState, sid: SocketId)
    requires Valid(s) && sid in s.sockets
    ensures Valid(Disconnect(s, sid))
  {
    var rooms', sockets' := LeaveAll(s.rooms, sid), s.sockets - {sid};
    assert RoomsLive(rooms', sockets') by {
      forall r | r in rooms' ensures rooms'[r] != {} && rooms'[r] <= sockets'.Keys {
        assert Members(rooms', r) == Members(s.rooms, r) - {sid};
      }
    }
    assert OwnRooms(rooms', sockets') by {
      forall x | x in sockets' ensures x != "" && x in Members(rooms', x) {
        assert x in Members(s.rooms, x);
      }
    }
    assert JoinsRecorded(rooms', sockets') by {
      forall x | x in sockets' ensures JoinRecorded(rooms', x, sockets'[x]) {
        assert JoinRecorded(s.rooms, x, s.sockets[x]);
        var d := s.sockets[x];
        if d.roomId.Some? {
          assert Members(rooms', d.roomId.value) == Members(s.rooms, d.roomId.value) - {sid};
        }
      }
    }
  }

  // ---------------------------------------------------------------------
  // What each handler delivers.

  /** `join-room` records the room, the connection's own id and the name
      (none for a bare string), adds the joiner to the room and to no other
      room, and delivers one `user-connected` to each member the room had
      before, except the members of the joiner's own-id room; the joiner
      and everyone outside the room receive nothing. */
  lemma {:induction false} JoinRoomSpec(s: RelayState, sid: SocketId, v: JoinValue)
    requires Valid(s) && sid in s.sockets
    ensures var r := JoinRoom(s, sid, v);
      && r.sockets == s.sockets[sid := SocketData(Some(RoomOf(v)), Some(sid), NameOf(v))]
      && (v.RoomName? ==> r.sockets[sid].userName == None)
      && Members(r.rooms, RoomOf(v)) == Members(s.rooms, RoomOf(v)) + {sid}
      && (forall room :: room != RoomOf(v) ==> Members(r.rooms, room) == Members(s.rooms, room))
      && Received(r.outbox, sid) == Received(s.outbox, sid)
      && (forall p :: Received(r.outbox, p) == Received(s.outbox, p) +
            (if p in Members(s.rooms, RoomOf(v)) && p !in Members(r.rooms, sid)
             then [UserConnected(sid, NameOf(v))] else []))
  {
    var r := JoinRoom(s, sid, v);
    assert Members(r.rooms, RoomOf(v)) == Members(s.rooms, RoomOf(v)) + {sid};
    assert sid in Members(s.rooms, sid);
    JoinOutbox(s, sid, v);
  }

  lemma JoinOutbox(s: RelayState, sid: SocketId, v: JoinValue)
    requires sid in s.sockets && sid in Members(s.rooms, sid)
    ensures var r := JoinRoom(s, sid, v);
      && Received(r.outbox, sid) == Received(s.outbox, sid)
      && (forall p :: Received(r.outbox, p) == Received(s.outbox, p) +
            (if p in Members(s.rooms, RoomOf(v)) && p !in Members(r.rooms, sid)
             then [UserConnected(sid, NameOf(v))] else []))
  {
    var r := JoinRoom(s, sid, v);
    forall p
      ensures Received(r.outbox, p) == Received(s.outbox, p) +
        (if p in Members(s.rooms, RoomOf(v)) && p !in Members(r.rooms, sid)
         then [UserConnected(sid, NameOf(v))] else [])
    {
      JoinDelivers(s, sid, v, p);
    }
    assert sid in Members(r.rooms, sid);
  }

  lemma JoinDelivers(s: RelayState, sid: SocketId, v: JoinValue, p: SocketId)
    requires sid in s.sockets && sid in Members(s.rooms, sid)
    ensures var rooms := AddMember(s.rooms, RoomOf(v), sid);
      Received(JoinRoom(s, sid, v).outbox, p) == Received(s.outbox, p) +
        (if p in Members(s.rooms, RoomOf(v)) && p !in Members(rooms, sid) then [UserConnected(sid, NameOf(v))] else [])
  {
    var rooms := AddMember(s.rooms, RoomOf(v), sid);
    var room := Members(rooms, RoomOf(v));
    var others := BroadcastFrom(rooms, sid, RoomOf(v));
    assert sid in Members(rooms, sid);
    assert others == Members(s.rooms, RoomOf(v)) - Members(rooms, sid);
    if |room| > 1 {
      ReceivedSend(s.outbox, others, UserConnected(sid, NameOf(v)), p);
    } else {
      AtMostOne(Members(s.rooms, RoomOf(v)), sid);
    }
  }

  lemma AtMostOne(a: set<SocketId>, x: SocketId)
    requires |a + {x}| <= 1
    ensures a <= {x}
  {
    assert a + {x} == (a - {x}) + {x};
    assert |a - {x}| == 0;
  }

  /** A joiner alone in its room triggers no emit at all. */
  lemma JoinAloneIsSilent(s: RelayState, sid: SocketId, v: JoinValue)
    requires sid in s.sockets
    requires Members(s.rooms, RoomOf(v)) <= {sid}
    ensures JoinRoom(s, sid, v).outbox == s.outbox
  {
    assert Members(AddMember(s.rooms, RoomOf(v), sid), RoomOf(v)) == {sid};
  }

  /** Whoever joined a room named after the joiner's id is not told, even
      when it shares the joined room: `socket.to` leaves out the sender's
      own-id room. */
  lemma JoinSkipsOwnRoomMembers(s: RelayState, sid: SocketId, v: JoinValue, x: SocketId)
    requires Valid(s) && sid in s.sockets
    requires x in Members(s.rooms, sid) && x in Members(s.rooms, RoomOf(v))
    ensures Received(JoinRoom(s, sid, v).outbox, x) == Received(s.outbox, x)
  {
    assert sid in Members(s.rooms, sid);
    JoinDelivers(s, sid, v, x);
  }

  /** `signal` changes no room and no connection, and delivers the payload
      verbatim, stamped with the caller's id and recorded name, exactly once
      to each member of the room named by the target and to nobody else. */
  lemma SignalSpec(s: RelayState, sid: SocketId, req: SignalRequest)
    requires sid in s.sockets
    ensures var r := Signal(s, sid, req);
      && r.rooms == s.rooms && r.sockets == s.sockets
      && (forall p :: Received(r.outbox, p) == Received(s.outbox, p) +
            (if p in Members(s.rooms, req.target)
             then [SignalEvent(SignalData(sid, s.sockets[sid].userName, req.signal))] else []))
  {
    var data := SignalData(sid, s.sockets[sid].userName, req.signal);
    forall p
      ensures Received(Signal(s, sid, req).outbox, p) == Received(s.outbox, p) +
            (if p in Members(s.rooms, req.target) then [SignalEvent(data)] else [])
    {
      ReceivedSend(s.outbox, Members(s.rooms, req.target), SignalEvent(data), p);
    }
  }

  /** A signal to an id that names no room changes nothing: no delivery and
      nothing back to the sender. */
  lemma SignalToUnknownTarget(s: RelayState, sid: SocketId, req: SignalRequest)
    requires sid in s.sockets && req.target !in s.rooms
    ensures Signal(s, sid, req) == s
  {
  }

  /** When the target is a live connection whose own room holds only itself
      (nobody joined a room of that name), the signal reaches that connection
      once and nobody else. */
  lemma SignalReachesOnlyTarget(s: RelayState, sid: SocketId, req: SignalRequest, p: SocketId)
    requires Valid(s) && sid in s.sockets && req.target in s.sockets
    requires Members(s.rooms, req.target) == {req.target}
    ensures var r := Signal(s, sid, req);
      Received(r.outbox, p) == Received(s.outbox, p) +
        (if p == req.target then [SignalEvent(SignalData(sid, s.sockets[sid].userName, req.signal))] else [])
  {
    SignalSpec(s, sid, req);
  }

  /** `disconnect` drops the connection and takes it out of every room; if
      it had joined, each remaining member of its room receives one
      `user-disconnect` carrying its id, except the members of its own-id
      room, and nobody else receives anything. */
  lemma {:induction false} DisconnectSpec(s: RelayState, sid: SocketId)
    requires Valid(s) && sid in s.sockets
    ensures var r := Disconnect(s, sid);
      var d := s.sockets[sid];
      && r.sockets == s.sockets - {sid}
      && (forall room :: Members(r.rooms, room) == Members(s.rooms, room) - {sid})
      && Received(r.outbox, sid) == Received(s.outbox, sid)
      && (forall p :: Received(r.outbox, p) == Received(s.outbox, p) +
            (if d.roomId.Some? && d.roomId.value != "" && p in Members(s.rooms, d.roomId.value)
                && p !in Members(s.rooms, sid)
             then [UserDisconnect(sid)] else []))
  {
    assert JoinRecorded(s.rooms, sid, s.sockets[sid]);
    assert sid != "" && sid in Members(s.rooms, sid);
    DisconnectOutbox(s, sid);
  }

  lemma DisconnectOutbox(s: RelayState, sid: SocketId)
    requires sid in s.sockets && sid != "" && JoinRecorded(s.rooms, sid, s.sockets[sid]) && sid in Members(s.rooms, sid)
    ensures var r := Disconnect(s, sid);
      var d := s.sockets[sid];
      && Received(r.outbox, sid) == Received(s.outbox, sid)
      && (forall p :: Received(r.outbox, p) == Received(s.outbox, p) +
            (if d.roomId.Some? && d.roomId.value != "" && p in Members(s.rooms, d.roomId.value)
                && p !in Members(s.rooms, sid)
             then [UserDisconnect(sid)] else []))
  {
    forall p
      ensures Received(Disconnect(s, sid).outbox, p) == Received(s.outbox, p) +
            (if s.sockets[sid].roomId.Some? && s.sockets[sid].roomId.value != ""
                && p in Members(s.rooms, s.sockets[sid].roomId.value) && p !in Members(s.rooms, sid)
             then [UserDisconnect(sid)] else [])
    {
      DisconnectBroadcast(s, sid, p);
    }
  }

  lemma DisconnectDelivers(s: RelayState, sid: SocketId, p: SocketId)
    requires Valid(s) && sid in s.sockets
    ensures var d := s.sockets[sid];
      Received(Disconnect(s, sid).outbox, p) == Received(s.outbox, p) +
        (if d.roomId.Some? && d.roomId.value != "" && p in Members(s.rooms, d.roomId.value)
            && p !in Members(s.rooms, sid)
         then [UserDisconnect(sid)] else [])
  {
    assert JoinRecorded(s.rooms, sid, s.sockets[sid]);
    assert sid != "" && sid in Members(s.rooms, sid);
    DisconnectBroadcast(s, sid, p);
  }

  lemma DisconnectBroadcast(s: RelayState, sid: SocketId, p: SocketId)
    requires sid in s.sockets && sid != "" && JoinRecorded(s.rooms, sid, s.sockets[sid]) && sid in Members(s.rooms, sid)
    ensures var d := s.sockets[sid];
      Received(Disconnect(s, sid).outbox, p) == Received(s.outbox, p) +
        (if d.roomId.Some? && d.roomId.value != "" && p in Members(s.rooms, d.roomId.value)
            && p !in Members(s.rooms, sid)
         then [UserDisconnect(sid)] else [])
  {
    var d := s.sockets[sid];
    if Truthy(d.roomId) && Truthy(d.userId) {
      var rooms := LeaveAll(s.rooms, sid);
      var rest := BroadcastFrom(rooms, sid, d.roomId.value);
      assert rest == Members(s.rooms, d.roomId.value) - Members(s.rooms, sid);
      ReceivedSend(s.outbox, rest, UserDisconnect(sid), p);
    }
  }

  /** The scenario of an empty room: A joins and nobody is told; B joins and
      A receives one `user-connected` for B while B receives nothing. */
  lemma TwoJoinScenario()
    ensures var s0 := Connect(Connect(Empty, "A"), "B");
      var s1 := JoinRoom(s0, "A", RoomObject("r1", Some("alice")));
      var s2 := JoinRoom(s1, "B", RoomObject("r1", Some("bob")));
      && s1.outbox == []
      && Received(s2.outbox, "A") == [UserConnected("B", Some("bob"))]
      && Received(s2.outbox, "B") == []
  {
    EmptyValid();
    ConnectValid(Empty, "A");
    var sa := Connect(Empty, "A");
    ConnectValid(sa, "B");
    var s0 := Connect(sa, "B");
    assert Members(s0.rooms, "r1") == {};
    var s1 := JoinRoom(s0, "A", RoomObject("r1", Some("alice")));
    JoinAloneIsSilent(s0, "A", RoomObject("r1", Some("alice")));
    JoinRoomValid(s0, "A", RoomObject("r1", Some("alice")));
    assert Received(s1.outbox, "A") == [] && Received(s1.outbox, "B") == [];
    JoinRoomSpec(s1, "B", RoomObject("r1", Some("bob")));
    assert Members(s1.rooms, "r1") == {"A"};
    assert Members(s1.rooms, "B") == {"B"};
  }

  /** The relay as an object: the adapter's rooms, the connections'
      `socket.data`, and the emits so far, updated in place by the
      handlers. */
  class RelayServer {
    var rooms: map<string, set<SocketId>>
    var sockets: map<SocketId, SocketData>
    var outbox: seq<Emit>

    ghost function State(): RelayState
      reads this
    {
      RelayState(rooms, sockets, outbox)
    }

    constructor ()
      ensures State() == Empty
    {
      rooms, sockets, outbox := map[], map[], [];
    }

    /** A connection arrives with the id socket.io chose for it. */
    method OnConnection(sid: SocketId)
      requires sid != "" && sid !in sockets
      modifies this
      ensures State() == Connect(old(State()), sid)
    {
      rooms := rooms[sid := (if sid in rooms then rooms[sid] else {}) + {sid}];
      sockets := sockets[sid := SocketData(None, None, None)];
    }

    method OnJoinRoom(sid: SocketId, value: JoinValue)
      requires sid in sockets
      modifies this
      ensures State() == JoinRoom(old(State()), sid, value)
    {
      var roomID := if value.RoomName? then value.room else value.roomID;
      var username := if value.RoomName? then None else value.username;
      assert roomID == RoomOf(value) && username == NameOf(value);
      rooms := rooms[roomID := (if roomID in rooms then rooms[roomID] else {}) + {sid}];
      sockets := sockets[sid := SocketData(Some(roomID), Some(sid), username)];
      assert rooms == AddMember(old(rooms), roomID, sid);
      var room := rooms[roomID];
      if |room| <= 1 {
        return;
      }
      var others := room - (if sid in rooms then rooms[sid] else {});
      if others != {} {
        outbox := outbox + [Emit(others, UserConnected(sid, username))];
      }
    }

    method OnSignal(sid: SocketId, data: SignalRequest)
      requires sid in sockets
      modifies this
      ensures State() == Signal(old(State()), sid, data)
    {
      var recipients := if data.target in rooms then rooms[data.target] else {};
      if recipients != {} {
        outbox := outbox + [Emit(recipients, SignalEvent(SignalData(sid, sockets[sid].userName, data.signal)))];
      }
    }

    method OnDisconnect(sid: SocketId)
      requires sid in sockets
      modifies this
      ensures State() == Disconnect(old(State()), sid)
    {
      var d := sockets[sid];
      rooms := map room | room in rooms && rooms[room] - {sid} != {} :: rooms[room] - {sid};
      sockets := sockets - {sid};
      assert rooms == LeaveAll(old(rooms), sid);
      if d.roomId.Some? && d.roomId.value != "" && d.userId.Some? && d.userId.value != "" {
        var rest := (if d.roomId.value in rooms then rooms[d.roomId.value] else {}) - (if sid in rooms then rooms[sid] else {});
        if rest != {} {
          outbox := outbox + [Emit(rest, UserDisconnect(d.userId.value))];
        }
      }
    }
  }
}
