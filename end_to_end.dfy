/** The join form and the relay together: what a client submits, what the
    relay delivers back, and where the client goes next. */
module EndToEnd {
  import opened Protocol
  import opened SignalingServer
  import opened JoinRoom

  /** A request the form emits, once the relay has handled it, comes back to
      the submitting connection as exactly one acknowledgement, and that
      acknowledgement, like every other one the join delivers, sends the client
      that receives it to the room code as it was typed (untrimmed). */
  lemma SubmittedRoomIsNavigated(shown: FormErrors, email: string, roomCode: string,
                                 rooms: Rooms, outbox: seq<Delivery>, sender: SocketId,
                                 rooms': Rooms, outbox': seq<Delivery>)
    requires SubmitOutcome(shown, email, roomCode, true).emits != []
    requires sender in Members(rooms, sender)
    requires var q := SubmitOutcome(shown, email, roomCode, true).emits[0];
             JoinStep(rooms, outbox, sender, q.email, q.roomCode, rooms', outbox')
    ensures Validate(email, roomCode).isValid
    ensures var ack := Delivery(sender, ROOM_JOIN, JoinAck(email, roomCode));
            multiset(outbox')[ack] == multiset(outbox)[ack] + 1
    ensures forall d | multiset(outbox')[d] > multiset(outbox)[d] && d.event == ROOM_JOIN ::
              d.payload.JoinAck? && RoomCodeOfPath(HandleRoomJoin(d.payload.email, d.payload.roomCode)) == Some(roomCode)
    ensures sender in Members(rooms', roomCode)
  {
    SubmitEmitsOnlyValidForms(shown, email, roomCode, true);
    JoinAcknowledgesJoiner(rooms, outbox, sender, email, roomCode, rooms', outbox',
                           Delivery(sender, ROOM_JOIN, JoinAck(email, roomCode)));
    forall d | multiset(outbox')[d] > multiset(outbox)[d] && d.event == ROOM_JOIN
      ensures d.payload == JoinAck(email, roomCode)
    {
      JoinStepDeliveries(rooms, outbox, sender, email, roomCode, rooms', outbox', d);
    }
  }

  /** The deliveries of the two-party run below, derived from the steps'
      contracts: the first join reaches only its joiner, the second also
      reaches the connection already in the room, each call message reaches
      its lone target, and the candidate for a closed connection is dropped. */
  lemma TwoPartyCallDeliveries(r1: Rooms, r2: Rooms, o1: seq<Delivery>, o2: seq<Delivery>,
                               o3: seq<Delivery>, o4: seq<Delivery>, o5: seq<Delivery>,
                               offer: Json, ans: Json, candidate: Json)
    requires var r0 := Join(Join(map[], "A", "A"), "B", "B");
             JoinStep(r0, [], "A", "a", "r1", r1, o1)
    requires JoinStep(r1, o1, "B", "b", "r1", r2, o2)
    requires Routed(o2, Members(r2, "B"), INCOMING_CALL, Offer("A", offer), o3)
    requires Routed(o3, Members(r2, "A"), CALL_ACCEPTED, Answer("B", ans), o4)
    requires Routed(o4, Members(LeaveAll(r2, "A"), "A"), ICE_CANDIDATE, Candidate("B", candidate), o5)
    ensures o5 == [
      Delivery("A", ROOM_JOIN, JoinAck("a", "r1")),
      Delivery("A", USER_JOINED, Joined("b", "B")),
      Delivery("B", ROOM_JOIN, JoinAck("b", "r1")),
      Delivery("B", INCOMING_CALL, Offer("A", offer)),
      Delivery("A", CALL_ACCEPTED, Answer("B", ans))
    ]
  {
    var r0 := Join(Join(map[], "A", "A"), "B", "B");
    assert Members(r2, "A") == {"A"} && Members(r2, "B") == {"B"};
    assert Members(LeaveAll(r2, "A"), "A") == {};
    RouteToUnknownIsDropped(o4, ICE_CANDIDATE, Candidate("B", candidate), o5);
    RouteToLoneConnection(o3, "A", CALL_ACCEPTED, Answer("B", ans), o4);
    RouteToLoneConnection(o2, "B", INCOMING_CALL, Offer("A", offer), o3);
    assert Members(r1, "r1") == {"A"};
    JoinRoomOfOne(r1, o1, "B", "b", "r1", r2, o2, "A");
    assert Members(r0, "r1") == {} && Members(r1, "A") == {"A"};
    JoinEmptyRoom(r0, [], "A", "a", "r1", r1, o1);
  }

  /** The two-party run: A and B connect and join room "r1", A calls B, B
      answers, then A's link drops and B's ICE candidate for A goes nowhere.
      The relay delivers exactly these five events, in this order. */
  method TwoPartyCall(offer: Json, ans: Json, candidate: Json) returns (delivered: seq<Delivery>)
    ensures delivered == [
      Delivery("A", ROOM_JOIN, JoinAck("a", "r1")),
      Delivery("A", USER_JOINED, Joined("b", "B")),
      Delivery("B", ROOM_JOIN, JoinAck("b", "r1")),
      Delivery("B", INCOMING_CALL, Offer("A", offer)),
      Delivery("A", CALL_ACCEPTED, Answer("B", ans))
    ]
  {
    var server := new Server();
    server.Connect("A");
    server.Connect("B");

    // Run the handlers, keeping each intermediate room table and outbox.
    server.OnRoomJoin("A", "a", "r1");
    ghost var r1, o1 := server.rooms, server.outbox;
    server.OnRoomJoin("B", "b", "r1");
    ghost var r2, o2 := server.rooms, server.outbox;
    server.OnUserCall("A", "B", offer);
    ghost var o3 := server.outbox;
    server.OnCallAccepted("B", "A", ans);
    ghost var o4 := server.outbox;
    server.CloseConnection("A");
    server.OnDisconnect("A");
    server.OnIceCandidate("B", "A", candidate);
    delivered := server.outbox;

    TwoPartyCallDeliveries(r1, r2, o1, o2, o3, o4, delivered, offer, ans, candidate);
  }
}
