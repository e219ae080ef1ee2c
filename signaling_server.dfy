/** The signalling relay: one `connection` handler per socket that keeps room
    membership and rewrites and routes negotiation messages
    (apps/signaling-server/src/index.ts).

    The handlers themselves are a few lines; what they rely on is socket.io's
    room semantics, which are modelled here explicitly:
    - every connection is a member of a room named by its own id;
    - `socket.join(room)` adds with set semantics and leaves other rooms alone;
    - `io.to(x).emit(e, p)` hands (e, p) once to every current member of x, in
      no particular order, and to nobody when x names no room;
    - when a connection closes, socket.io removes it from every room and drops
      the rooms left empty. */
module SignalingServer {
  import opened Protocol

  /** socket.io's room table: room name to its member connections. */
  type Rooms = map<Target, set<SocketId>>

  /** The connections `io.to(x)` reaches. */
  function Members(rooms: Rooms, x: Target): set<SocketId>
  {
    if x in rooms then rooms[x] else {}
  }

  /** The rooms `id` belongs to. */
  function RoomsOf(rooms: Rooms, id: SocketId): set<Target>
  {
    set x | x in rooms && id in rooms[x]
  }

  /** `socket.join(room)` by connection `id`. */
  function Join(rooms: Rooms, room: Target, id: SocketId): (r: Rooms)
    ensures Members(r, room) == Members(rooms, room) + {id}
    ensures forall x | x != room :: Members(r, x) == Members(rooms, x)
  {
    rooms[room := Members(rooms, room) + {id}]
  }

  /** socket.io's teardown of a closed connection `id`: it leaves every room,
      and a room it leaves empty is deleted. */
  function LeaveAll(rooms: Rooms, id: SocketId): (r: Rooms)
    ensures forall x :: Members(r, x) == Members(rooms, x) - {id}
    ensures forall x | x in r :: r[x] != {}
  {
    map x | x in rooms && rooms[x] - {id} != {} :: rooms[x] - {id}
  }

  // ---------------------------------------------------------------------
  // Broadcasts: what one `io.to(x).emit(event, payload)` delivers.
  // ---------------------------------------------------------------------

  /** `ds` hands (event, p) once to each member of `audience` and to nobody
      else, in some order. */
  ghost predicate IsBroadcast(ds: seq<Delivery>, audience: set<SocketId>, event: string, p: Payload)
    decreases ds
  {
    if ds == [] then audience == {}
    else
      ds[0].recipient in audience && ds[0].event == event && ds[0].payload == p &&
      IsBroadcast(ds[1..], audience - {ds[0].recipient}, event, p)
  }

  /** How many copies of `d` a broadcast of (event, p) to `audience` carries. */
  function Copies(d: Delivery, audience: set<SocketId>, event: string, p: Payload): nat
  {
    if d.recipient in audience && d.event == event && d.payload == p then 1 else 0
  }

  /** The outbox grows from `before` to `after` by one broadcast. */
  ghost predicate Routed(before: seq<Delivery>, audience: set<SocketId>, event: string, p: Payload,
                         after: seq<Delivery>)
  {
    |before| <= |after| && after[..|before|] == before &&
    IsBroadcast(after[|before|..], audience, event, p)
  }

  /** socket.io's fan-out behind `io.to(x).emit(event, p)`: one delivery per
      member of the room, picked in an unspecified order. */
  method Broadcast(audience: set<SocketId>, event: string, p: Payload) returns (ds: seq<Delivery>)
    ensures IsBroadcast(ds, audience, event, p)
  {
    ds := [];
    var pending := audience;
    while pending != {}
      invariant pending <= audience
      invariant IsBroadcast(ds, audience - pending, event, p)
      decreases pending
    {
      var r :| r in pending;
      assert (audience - (pending - {r})) - {r} == audience - pending;
      ds := [Delivery(r, event, p)] + ds;
      pending := pending - {r};
    }
    assert audience - pending == audience;
  }

  /** A broadcast delivers each member of its audience exactly one copy and
      delivers nothing else. */
  lemma {:induction false} BroadcastCount(ds: seq<Delivery>, audience: set<SocketId>, event: string,
                                          p: Payload, d: Delivery)
    requires IsBroadcast(ds, audience, event, p)
    ensures multiset(ds)[d] == Copies(d, audience, event, p)
  {
    if ds != [] {
      assert ds == [ds[0]] + ds[1..];
      BroadcastCount(ds[1..], audience - {ds[0].recipient}, event, p, d);
    }
  }

  /** A broadcast makes as many deliveries as its audience has members. */
  lemma {:induction false} BroadcastLength(ds: seq<Delivery>, audience: set<SocketId>, event: string,
                                           p: Payload)
    requires IsBroadcast(ds, audience, event, p)
    ensures |ds| == |audience|
  {
    if ds != [] {
      BroadcastLength(ds[1..], audience - {ds[0].recipient}, event, p);
    }
  }

  /** A broadcast to a name with no members delivers nothing. */
  lemma BroadcastToNobody(ds: seq<Delivery>, event: string, p: Payload)
    requires IsBroadcast(ds, {}, event, p)
    ensures ds == []
  {
  }

  /** A broadcast to a single member is exactly one delivery. */
  lemma BroadcastToOne(ds: seq<Delivery>, t: SocketId, event: string, p: Payload)
    requires IsBroadcast(ds, {t}, event, p)
    ensures ds == [Delivery(t, event, p)]
  {
  }

  /** What one routed emit adds to the outbox, delivery by delivery. */
  lemma RoutedCount(before: seq<Delivery>, audience: set<SocketId>, event: string, p: Payload,
                    after: seq<Delivery>, d: Delivery)
    requires Routed(before, audience, event, p, after)
    ensures multiset(after)[d] == multiset(before)[d] + Copies(d, audience, event, p)
  {
    assert after == before + after[|before|..];
    BroadcastCount(after[|before|..], audience, event, p, d);
  }

  /** Routing to a name that is neither a connection nor a room drops the
      message silently: the outbox is unchanged and nothing goes back to the
      sender. */
  lemma RouteToUnknownIsDropped(before: seq<Delivery>, event: string, p: Payload, after: seq<Delivery>)
    requires Routed(before, {}, event, p, after)
    ensures after == before
  {
  }

  /** Routing to a connection id that nobody else has joined as a room
      reaches that connection once and nobody else. */
  lemma RouteToLoneConnection(before: seq<Delivery>, t: SocketId, event: string, p: Payload,
                              after: seq<Delivery>)
    requires Routed(before, {t}, event, p, after)
    ensures after == before + [Delivery(t, event, p)]
  {
    BroadcastToOne(after[|before|..], t, event, p);
    assert after == before + after[|before|..];
  }

  // ---------------------------------------------------------------------
  // room:join as a step on (rooms, outbox).
  // ---------------------------------------------------------------------

  /** The `room:join` handler: fan `user:joined` out to the room as it was,
      then join, then acknowledge through `io.to(sender)`, which by then
      reaches the members of the room named by the sender's id. */
  ghost predicate JoinStep(rooms: Rooms, outbox: seq<Delivery>, sender: SocketId, email: string,
                           roomCode: string, rooms': Rooms, outbox': seq<Delivery>)
  {
    rooms' == Join(rooms, roomCode, sender) &&
    exists mid ::
      Routed(outbox, Members(rooms, roomCode), USER_JOINED, Joined(email, sender), mid) &&
      Routed(mid, Members(rooms', sender), ROOM_JOIN, JoinAck(email, roomCode), outbox')
  }

  /** The deliveries one join adds: one `user:joined` per connection that was
      already in the room, one acknowledgement per member of the sender's own
      room, nothing else. */
  lemma JoinStepDeliveries(rooms: Rooms, outbox: seq<Delivery>, sender: SocketId, email: string,
                           roomCode: string, rooms': Rooms, outbox': seq<Delivery>, d: Delivery)
    requires JoinStep(rooms, outbox, sender, email, roomCode, rooms', outbox')
    ensures multiset(outbox')[d] ==
              multiset(outbox)[d]
              + Copies(d, Members(rooms, roomCode), USER_JOINED, Joined(email, sender))
              + Copies(d, Members(rooms', sender), ROOM_JOIN, JoinAck(email, roomCode))
  {
    var mid :| Routed(outbox, Members(rooms, roomCode), USER_JOINED, Joined(email, sender), mid) &&
               Routed(mid, Members(rooms', sender), ROOM_JOIN, JoinAck(email, roomCode), outbox');
    RoutedCount(outbox, Members(rooms, roomCode), USER_JOINED, Joined(email, sender), mid, d);
    RoutedCount(mid, Members(rooms', sender), ROOM_JOIN, JoinAck(email, roomCode), outbox', d);
  }

  /** `user:joined {email, id: sender}` reaches exactly the connections that
      were members of the room before the join, once each. A first-time joiner
      is not among them; a connection joining a room it is already in is. */
  lemma JoinNotifiesPriorMembers(rooms: Rooms, outbox: seq<Delivery>, sender: SocketId, email: string,
                                 roomCode: string, rooms': Rooms, outbox': seq<Delivery>, r: SocketId)
    requires JoinStep(rooms, outbox, sender, email, roomCode, rooms', outbox')
    ensures var n := Delivery(r, USER_JOINED, Joined(email, sender));
            multiset(outbox')[n] == multiset(outbox)[n] + (if r in Members(rooms, roomCode) then 1 else 0)
    ensures var self := Delivery(sender, USER_JOINED, Joined(email, sender));
            multiset(outbox')[self] == multiset(outbox)[self] + (if sender in Members(rooms, roomCode) then 1 else 0)
  {
    JoinStepDeliveries(rooms, outbox, sender, email, roomCode, rooms', outbox',
                       Delivery(r, USER_JOINED, Joined(email, sender)));
    JoinStepDeliveries(rooms, outbox, sender, email, roomCode, rooms', outbox',
                       Delivery(sender, USER_JOINED, Joined(email, sender)));
  }

  /** The joiner gets exactly one `room:join` acknowledgement echoing its
      email and room code. When no other connection has joined a room named by
      the joiner's id, nobody else gets an acknowledgement. */
  lemma JoinAcknowledgesJoiner(rooms: Rooms, outbox: seq<Delivery>, sender: SocketId, email: string,
                               roomCode: string, rooms': Rooms, outbox': seq<Delivery>, d: Delivery)
    requires sender in Members(rooms, sender)
    requires JoinStep(rooms, outbox, sender, email, roomCode, rooms', outbox')
    ensures var ack := Delivery(sender, ROOM_JOIN, JoinAck(email, roomCode));
            multiset(outbox')[ack] == multiset(outbox)[ack] + 1
    ensures Members(rooms, sender) == {sender} && d.recipient != sender && d.event == ROOM_JOIN ==>
              multiset(outbox')[d] == multiset(outbox)[d]
  {
    JoinStepDeliveries(rooms, outbox, sender, email, roomCode, rooms', outbox',
                       Delivery(sender, ROOM_JOIN, JoinAck(email, roomCode)));
    JoinStepDeliveries(rooms, outbox, sender, email, roomCode, rooms', outbox', d);
  }

  /** The first connection to join a room, when nobody else has joined a
      room named by its id, gets its acknowledgement and nothing else. */
  lemma JoinEmptyRoom(rooms: Rooms, outbox: seq<Delivery>, sender: SocketId, email: string,
                      roomCode: string, rooms': Rooms, outbox': seq<Delivery>)
    requires JoinStep(rooms, outbox, sender, email, roomCode, rooms', outbox')
    requires Members(rooms, roomCode) == {} && Members(rooms', sender) == {sender}
    ensures outbox' == outbox + [Delivery(sender, ROOM_JOIN, JoinAck(email, roomCode))]
  {
    var mid :| Routed(outbox, Members(rooms, roomCode), USER_JOINED, Joined(email, sender), mid) &&
               Routed(mid, Members(rooms', sender), ROOM_JOIN, JoinAck(email, roomCode), outbox');
    RouteToUnknownIsDropped(outbox, USER_JOINED, Joined(email, sender), mid);
    RouteToLoneConnection(mid, sender, ROOM_JOIN, JoinAck(email, roomCode), outbox');
  }

  /** The second connection to join a room: the one already there hears of
      it, then the joiner gets its acknowledgement. */
  lemma JoinRoomOfOne(rooms: Rooms, outbox: seq<Delivery>, sender: SocketId, email: string,
                      roomCode: string, rooms': Rooms, outbox': seq<Delivery>, peer: SocketId)
    requires JoinStep(rooms, outbox, sender, email, roomCode, rooms', outbox')
    requires Members(rooms, roomCode) == {peer} && Members(rooms', sender) == {sender}
    ensures outbox' == outbox + [Delivery(peer, USER_JOINED, Joined(email, sender)),
                                 Delivery(sender, ROOM_JOIN, JoinAck(email, roomCode))]
  {
    var mid :| Routed(outbox, Members(rooms, roomCode), USER_JOINED, Joined(email, sender), mid) &&
               Routed(mid, Members(rooms', sender), ROOM_JOIN, JoinAck(email, roomCode), outbox');
    RouteToLoneConnection(outbox, peer, USER_JOINED, Joined(email, sender), mid);
    RouteToLoneConnection(mid, sender, ROOM_JOIN, JoinAck(email, roomCode), outbox');
  }

  /** After joining, the sender is a member of the room; it keeps every other
      room it was in, so it can belong to several rooms at once, and nobody
      else's memberships change. */
  lemma JoinAddsOnlyThatRoom(rooms: Rooms, room: Target, id: SocketId, other: SocketId)
    ensures id in Members(Join(rooms, room, id), room)
    ensures RoomsOf(Join(rooms, room, id), id) == RoomsOf(rooms, id) + {room}
    ensures other != id ==> RoomsOf(Join(rooms, room, id), other) == RoomsOf(rooms, other)
  {
  }

  /** Join has set semantics: joining a room one is already in changes
      nothing, so joining twice is joining once. */
  lemma JoinIsIdempotent(rooms: Rooms, room: Target, id: SocketId)
    ensures id in Members(rooms, room) ==> Join(rooms, room, id) == rooms
    ensures Join(Join(rooms, room, id), room, id) == Join(rooms, room, id)
  {
    if id in Members(rooms, room) {
      assert Members(rooms, room) + {id} == Members(rooms, room);
    }
    var r := Join(rooms, room, id);
    assert Members(r, room) + {id} == Members(r, room);
  }

  /** Closing a connection twice has the membership effect of closing it once. */
  lemma LeaveAllIsIdempotent(rooms: Rooms, id: SocketId)
    ensures LeaveAll(LeaveAll(rooms, id), id) == LeaveAll(rooms, id)
  {
    var once := LeaveAll(rooms, id);
    var twice := LeaveAll(once, id);
    forall x | x in once
      ensures x in twice && twice[x] == once[x]
    {
      assert id !in once[x];
      assert once[x] - {id} == once[x];
    }
    assert twice.Keys == once.Keys;
  }

  /** After socket.io has torn a connection down, nothing routed to any name
      reaches it, and routing to its id reaches nobody unless others joined a
      room of that name. */
  lemma ClosedConnectionGetsNothing(rooms: Rooms, id: SocketId, to: Target, before: seq<Delivery>,
                                    event: string, p: Payload, after: seq<Delivery>, d: Delivery)
    requires Routed(before, Members(LeaveAll(rooms, id), to), event, p, after)
    ensures d.recipient == id ==> multiset(after)[d] == multiset(before)[d]
    ensures to == id && Members(rooms, id) <= {id} ==> after == before
  {
    RoutedCount(before, Members(LeaveAll(rooms, id), to), event, p, after, d);
    if to == id && Members(rooms, id) <= {id} {
      assert Members(LeaveAll(rooms, id), to) == {};
      RouteToUnknownIsDropped(before, event, p, after);
    }
  }

  // ---------------------------------------------------------------------
  // The relay process.
  // ---------------------------------------------------------------------

  /** The state of the relay: socket.io's connections and room table, and
      every event handed to a connection so far. */
  class Server {
    var connected: set<SocketId>
    var rooms: Rooms
    var outbox: seq<Delivery>

    /** Rooms hold live connections only and are never empty; every live
        connection is in the room named by its own id. */
    ghost predicate Valid()
      reads this
    {
      (forall x | x in rooms :: rooms[x] != {} && rooms[x] <= connected) &&
      (forall c | c in connected :: c in Members(rooms, c))
    }

    constructor ()
      ensures Valid()
      ensures connected == {} && rooms == map[] && outbox == []
    {
      connected := {};
      rooms := map[];
      outbox := [];
    }

    /** socket.io accepting a connection under a fresh id: the connection
        joins the room named by its id. */
    method Connect(id: SocketId)
      requires Valid() && id !in connected
      modifies this`connected, this`rooms
      ensures Valid()
      ensures connected == old(connected) + {id}
      ensures rooms == Join(old(rooms), id, id)
      ensures outbox == old(outbox)
    {
      connected := connected + {id};
      rooms := Join(rooms, id, id);
    }

    /** `io.to(x).emit(event, p)`. */
    method Emit(x: Target, event: string, p: Payload)
      modifies this`outbox
      ensures Routed(old(outbox), Members(rooms, x), event, p, outbox)
    {
      var ds := Broadcast(Members(rooms, x), event, p);
      outbox := outbox + ds;
      assert outbox[..|old(outbox)|] == old(outbox);
      assert outbox[|old(outbox)|..] == ds;
    }

    /** The `room:join {email, roomCode}` handler. */
    method OnRoomJoin(sender: SocketId, email: string, roomCode: string)
      requires Valid() && sender in connected
      modifies this`rooms, this`outbox
      ensures Valid()
      ensures JoinStep(old(rooms), old(outbox), sender, email, roomCode, rooms, outbox)
    {
      Emit(roomCode, USER_JOINED, Joined(email, sender));
      ghost var mid := outbox;
      assert Routed(old(outbox), Members(old(rooms), roomCode), USER_JOINED, Joined(email, sender), mid);
      rooms := Join(rooms, roomCode, sender);
      // The sender is live, so the table still satisfies both parts of Valid().
      assert forall x | x in rooms :: rooms[x] != {} && rooms[x] <= connected;
      assert forall c | c in connected :: c in Members(rooms, c);
      Emit(sender, ROOM_JOIN, JoinAck(email, roomCode));
      assert Routed(mid, Members(rooms, sender), ROOM_JOIN, JoinAck(email, roomCode), outbox);
    }

    /** The `user:call {to, offer}` handler: `incomming:call {from: sender, offer}` to `to`. */
    method OnUserCall(sender: SocketId, to: Target, offer: Json)
      requires Valid() && sender in connected
      modifies this`outbox
      ensures Valid() && rooms == old(rooms) && connected == old(connected)
      ensures Routed(old(outbox), Members(rooms, to), INCOMING_CALL, Offer(sender, offer), outbox)
    {
      Emit(to, INCOMING_CALL, Offer(sender, offer));
    }

    /** The `call:accepted {to, ans}` handler: `call:accepted {from: sender, ans}` to `to`. */
    method OnCallAccepted(sender: SocketId, to: Target, ans: Json)
      requires Valid() && sender in connected
      modifies this`outbox
      ensures Valid() && rooms == old(rooms) && connected == old(connected)
      ensures Routed(old(outbox), Members(rooms, to), CALL_ACCEPTED, Answer(sender, ans), outbox)
    {
      Emit(to, CALL_ACCEPTED, Answer(sender, ans));
    }

    /** The `peer:ice:candidate {to, candidate}` handler:
        `peer:ice:candidate {from: sender, candidate}` to `to`. */
    method OnIceCandidate(sender: SocketId, to: Target, candidate: Json)
      requires Valid() && sender in connected
      modifies this`outbox
      ensures Valid() && rooms == old(rooms) && connected == old(connected)
      ensures Routed(old(outbox), Members(rooms, to), ICE_CANDIDATE, Candidate(sender, candidate), outbox)
    {
      Emit(to, ICE_CANDIDATE, Candidate(sender, candidate));
    }

    /** Once a connection is closed it is in no room, so in every later state
        that keeps Valid() (every handler does) a routed message, whatever
        its target, never reaches it. */
    lemma ClosedConnectionIsUnreachable(id: SocketId, to: Target, before: seq<Delivery>,
                                        event: string, p: Payload, after: seq<Delivery>, d: Delivery)
      requires Valid() && id !in connected
      requires Routed(before, Members(rooms, to), event, p, after)
      ensures id !in Members(rooms, to)
      ensures d.recipient == id ==> multiset(after)[d] == multiset(before)[d]
    {
      RoutedCount(before, Members(rooms, to), event, p, after, d);
    }

    /** The app's `disconnect` handler only logs. */
    method OnDisconnect(sender: SocketId)
      requires Valid()
      ensures Valid() && unchanged(this)
    {
    }

    /** socket.io closing connection `id`: it leaves every room before the
        `disconnect` handler runs. Closing an already closed id changes nothing
        more (see LeaveAllIsIdempotent). */
    method CloseConnection(id: SocketId)
      requires Valid()
      modifies this`connected, this`rooms
      ensures Valid()
      ensures connected == old(connected) - {id}
      ensures rooms == LeaveAll(old(rooms), id)
      ensures outbox == old(outbox)
    {
      connected := connected - {id};
      rooms := LeaveAll(rooms, id);
    }
  }
}
