/** Event names and payloads that travel over the signalling link between the
    browser clients and the relay (socket.io events with JSON payloads). */
module Protocol {

  /** A connection id, assigned by socket.io when a client connects. */
  type SocketId = string

  /** What `io.to(...)` accepts: a room code or a connection id. socket.io keeps
      both in one namespace, since every connection is a room of its own. */
  type Target = string

  /** A JSON value (session description or ICE candidate) that the relay
      forwards without looking inside it. */
  type Json = string

  // Event names, spelled exactly as on the wire.
  const USER_JOINED := "user:joined"
  const ROOM_JOIN := "room:join"
  const INCOMING_CALL := "incomming:call"
  const CALL_ACCEPTED := "call:accepted"
  const ICE_CANDIDATE := "peer:ice:candidate"

  /** The `{email, roomCode}` body of a client's `room:join` request. */
  datatype JoinRequest = JoinRequest(email: string, roomCode: string)

  /** Bodies of the events the relay sends to clients. */
  datatype Payload =
    | Joined(email: string, id: SocketId)         // user:joined
    | JoinAck(email: string, roomCode: string)    // room:join (acknowledgement)
    | Offer(from: SocketId, offer: Json)          // incomming:call
    | Answer(from: SocketId, ans: Json)           // call:accepted
    | Candidate(from: SocketId, candidate: Json)  // peer:ice:candidate

  /** One event handed to one connection. */
  datatype Delivery = Delivery(recipient: SocketId, event: string, payload: Payload)
}
