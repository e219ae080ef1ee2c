# meet-p2p signalling core in Dafny

meet-p2p lets two browsers find each other in a named room and set up a
WebRTC call. This project models the two parts of it that are plain logic.

- **The signalling relay** (`apps/signaling-server/src/index.ts`). It is a
  socket.io server with one handler per event.
  - `room:join {email, roomCode}` first tells the room's current members
    `user:joined {email, id}`. It then joins the sender to the room and
    acknowledges with `room:join {email, roomCode}`, sent through
    `io.to(socket.id)`.
  - `user:call`, `call:accepted` and `peer:ice:candidate` forward their
    payload to the name in `to`. The outgoing events are `incomming:call` (the
    code spells it this way), `call:accepted` and `peer:ice:candidate`. In each,
    `to` is replaced by `from: socket.id`.
  - `disconnect` only logs.
- **The join form** (`apps/frontend/src/components/room/JoinRoom.tsx`).
  - `validateForm` checks the email and the room code.
  - `handleSubmit` decides whether `room:join` is emitted.
  - `handleRoomJoin` navigates to `/room/<roomCode>` once the relay has
    acknowledged the join.

## Modules

- `Protocol` (protocol.dfy) holds the event names as spelled on the wire and
  the payloads. A delivery is one `(recipient, event, payload)` record.
- `SignalingServer` (signaling_server.dfy) has the class `Server`. Its fields
  are the live connections, socket.io's room table (`map<Target,
  set<SocketId>>`) and an outbox of deliveries. There is one method per
  handler.
  - Each handler is proved against a step on values. `JoinStep` describes a
    join. `Routed` describes one `io.to(x).emit`, which is one `IsBroadcast`
    appended to the outbox.
  - The lemmas about these steps say who receives what, and how often. They
    count copies with `multiset(outbox)[d]`.
- `JoinRoom` (join_room.dfy) has the whitespace rule of JavaScript `trim()`,
  UTF-16 `length`, the specification `Validate`, and the imperative
  `ValidateForm` proved against it. It also has the submit outcome, the class
  `JoinRoomForm` for the component's state, and the navigation path.
- `EndToEnd` (end_to_end.dfy) ties the form's request to the relay's
  acknowledgement and the client's navigation. It also runs a two-party call
  through the `Server` class.

## socket.io behaviour assumed

The relay's code relies on socket.io. The model states these rules
explicitly:

- Every connection is a member of a room named by its own id. `Server.Connect`
  models this.
- Room codes and connection ids share one namespace, so `to` may name a room
  and `io.to(socket.id)` may reach others. This happens when another connection
  has joined a room whose code equals that id.
- `socket.join` has set semantics and leaves other rooms alone (`Join`).
- `io.to(x).emit` reaches every member of `x` once, in an unspecified order,
  and reaches nobody when `x` is unknown. `Broadcast` models the order with a
  `:|` choice.
- On close, socket.io removes the connection from every room and deletes the
  rooms left empty (`LeaveAll`, `Server.CloseConnection`). This is socket.io's
  doing, not the app's. The app's own `disconnect` handler (`OnDisconnect`)
  changes nothing.

## Where the model follows the code over the usual design

- User notification:
  - The code notifies the room before joining the sender. A connection that
    re-joins a room it is already in therefore receives its own
    `user:joined`.
  - The code does not commit the join first and then notify only the
    "other" members.
- Room membership:
  - A connection can belong to several rooms at once.
  - Nothing leaves the previous room before a join.
- Routing:
  - `to` is a name that can denote a whole room, so a negotiation message is
    not guaranteed to reach exactly one connection. `RouteToLoneConnection`
    states the case where it does.
  - There is no `call:ended` relay.
  - There is no server-side check of the room code.
- The payload fields are `email` and `ans`, and the event name is
  `incomming:call`.
- When `handleSubmit` finds no socket, it spreads the `errors` value that the
  handler captured at render time. An email message shown before this submit
  therefore comes back, even though this submit's email passed
  (`StaleEmailErrorSurvives`). In the app `useSocket()` always yields a socket,
  so this path is not reached in practice.

## Model

| member | source | states |
|---|---|---|
| `SignalingServer.Join` | apps/signaling-server/src/index.ts:15 | `socket.join`: the room gains the joiner, set-like; every other room's members are unchanged |
| `SignalingServer.LeaveAll` | apps/signaling-server/src/index.ts:32-34 | socket.io's teardown before `disconnect`: the id leaves every room and nobody else's membership changes; no empty room remains |
| `SignalingServer.Broadcast` | apps/signaling-server/src/index.ts:14 | `io.to(x).emit`: the deliveries form a broadcast, one copy of (event, payload) per member of the audience, in an unspecified order |
| `SignalingServer.BroadcastCount` | apps/signaling-server/src/index.ts:14 | a broadcast delivers exactly one copy to each member of its audience and nothing to anyone else |
| `SignalingServer.BroadcastLength` | apps/signaling-server/src/index.ts:14 | a broadcast makes as many deliveries as its audience has members |
| `SignalingServer.BroadcastToNobody` | apps/signaling-server/src/index.ts:14 | emitting to a name with no members delivers nothing |
| `SignalingServer.BroadcastToOne` | apps/signaling-server/src/index.ts:14 | emitting to a one-member name is exactly one delivery to that member |
| `SignalingServer.RoutedCount` | apps/signaling-server/src/index.ts:20-30 | a forwarded message adds one copy per member of target `to` and no other delivery |
| `SignalingServer.RouteToUnknownIsDropped` | apps/signaling-server/src/index.ts:20-30 | forwarding to a name that is no connection and no room leaves the outbox unchanged, with no error back to the sender |
| `SignalingServer.RouteToLoneConnection` | apps/signaling-server/src/index.ts:20-30 | forwarding to an id that nobody else has joined as a room is exactly one delivery to it |
| `SignalingServer.JoinStepDeliveries` | apps/signaling-server/src/index.ts:13-18 | a join adds one `user:joined {email, id: sender}` per member of the room before the join, one `room:join {email, roomCode}` per member of the sender's own room after it, and nothing else |
| `SignalingServer.JoinNotifiesPriorMembers` | apps/signaling-server/src/index.ts:14-15 | `user:joined` reaches exactly the connections already in the room, once each; the joiner gets its own notice iff it was already a member |
| `SignalingServer.JoinAcknowledgesJoiner` | apps/signaling-server/src/index.ts:17 | the joiner receives exactly one acknowledgement echoing its email and room code; when its own room holds only itself, nobody else receives one |
| `SignalingServer.JoinEmptyRoom` | apps/signaling-server/src/index.ts:13-18 | the first joiner of a room, when no other connection has joined a room named by the joiner's id, receives its acknowledgement and nothing else is delivered (otherwise `io.to(socket.id)` also acknowledges those connections) |
| `SignalingServer.JoinRoomOfOne` | apps/signaling-server/src/index.ts:13-18 | the second joiner, when no other connection has joined a room named by the joiner's id: the member already present is notified, then the joiner is acknowledged, in that order, and nothing else is delivered |
| `SignalingServer.JoinAddsOnlyThatRoom` | apps/signaling-server/src/index.ts:15 | after a join the sender is in the room and keeps all its other rooms; other connections' rooms are unchanged |
| `SignalingServer.JoinIsIdempotent` | apps/signaling-server/src/index.ts:15 | re-joining a room already joined changes nothing; joining twice equals joining once |
| `SignalingServer.LeaveAllIsIdempotent` | apps/signaling-server/src/index.ts:32-34 | tearing a connection down twice has the membership effect of doing it once |
| `SignalingServer.ClosedConnectionGetsNothing` | apps/signaling-server/src/index.ts:28-34 | the first message routed after a connection is torn down, whatever its target, adds no delivery to it; routing to its id reaches nobody unless others joined a room of that name |
| `SignalingServer.Server.constructor` | apps/signaling-server/src/index.ts:3-8 | the relay starts with no connections, no rooms and nothing delivered |
| `SignalingServer.Server.Connect` | apps/signaling-server/src/index.ts:10-11 | a new connection joins the room named by its id; no delivery |
| `SignalingServer.Server.Emit` | apps/signaling-server/src/index.ts:14 | `io.to(x).emit` appends one broadcast to the members of `x` and leaves rooms alone |
| `SignalingServer.Server.OnRoomJoin` | apps/signaling-server/src/index.ts:13-18 | the `room:join` handler performs a `JoinStep`: notify the prior members, join, acknowledge through the sender's own room; the room invariant is kept |
| `SignalingServer.Server.OnUserCall` | apps/signaling-server/src/index.ts:20-22 | `incomming:call {from: sender, offer}` goes to the members of `to` with `offer` unchanged; membership is unchanged |
| `SignalingServer.Server.OnCallAccepted` | apps/signaling-server/src/index.ts:24-26 | `call:accepted {from: sender, ans}` goes to the members of `to` with `ans` unchanged; membership is unchanged |
| `SignalingServer.Server.OnIceCandidate` | apps/signaling-server/src/index.ts:28-30 | `peer:ice:candidate {from: sender, candidate}` goes to the members of `to` with `candidate` unchanged; membership is unchanged |
| `SignalingServer.Server.ClosedConnectionIsUnreachable` | apps/signaling-server/src/index.ts:13-34 | in any state that keeps the relay's invariant, a closed connection is in no room, so a message routed to any target adds no delivery to it; every handler keeps the invariant, so this holds for all later messages |
| `SignalingServer.Server.OnDisconnect` | apps/signaling-server/src/index.ts:32-34 | the app's `disconnect` handler changes no state and emits nothing |
| `SignalingServer.Server.CloseConnection` | apps/signaling-server/src/index.ts:32-34 | socket.io's close: the connection is gone and has left every room; nothing is delivered |
| `JoinRoom.TrimStart` | apps/frontend/src/components/room/JoinRoom.tsx:33 | the result is the suffix of the input after a maximal run of leading JavaScript white space |
| `JoinRoom.TrimEnd` | apps/frontend/src/components/room/JoinRoom.tsx:41 | the result is the prefix of the input before a maximal run of trailing JavaScript white space |
| `JoinRoom.TrimIsEmptyIffBlank` | apps/frontend/src/components/room/JoinRoom.tsx:33 | `s.trim()` is empty (falsy) exactly when every character of `s` is white space or a line terminator |
| `JoinRoom.Utf16Length` | apps/frontend/src/components/room/JoinRoom.tsx:36 | `email.length` counts UTF-16 code units: between one and two per character, one each when all lie in the Basic Multilingual Plane |
| `JoinRoom.Validate` | apps/frontend/src/components/room/JoinRoom.tsx:29-48 | blank email iff `email is required.`; non-blank with length below 3 iff `email must be at least 3 characters.`; blank room code iff `Room code is required.`; valid iff both messages are empty |
| `JoinRoom.ValidateForm` | apps/frontend/src/components/room/JoinRoom.tsx:29-48 | the step-by-step validator, using `trim`, yields exactly the messages and flag of `Validate` |
| `JoinRoom.BlankFormReportsBothErrors` | apps/frontend/src/components/room/JoinRoom.tsx:33-44 | both fields are checked independently: two blank fields give both messages and an invalid form |
| `JoinRoom.EmailLengthIsUntrimmedUtf16` | apps/frontend/src/components/room/JoinRoom.tsx:36-38 | the length rule uses the untrimmed UTF-16 length: `" a "` passes, `"ab"` is too short, an emoji plus a letter passes |
| `JoinRoom.SubmitEmitsOnlyValidForms` | apps/frontend/src/components/room/JoinRoom.tsx:53-68 | `room:join` is emitted once iff the email is non-blank with length at least 3, the room code is non-blank and a socket exists; the payload is the raw untrimmed `{email, roomCode}` |
| `JoinRoom.SubmitErrorState` | apps/frontend/src/components/room/JoinRoom.tsx:53-66 | an invalid form shows this submit's messages; a sent form shows none; a valid form without a socket shows `Failed to join room. Please try again.` under the room code and keeps the previously shown email message |
| `JoinRoom.StaleEmailErrorSurvives` | apps/frontend/src/components/room/JoinRoom.tsx:57-61 | with no socket, an email message shown before the submit survives although this submit's email is valid |
| `JoinRoom.HandleRoomJoin` | apps/frontend/src/components/room/JoinRoom.tsx:73-78 | the navigation path is `/room/` followed by the acknowledged room code, which can be read back from it verbatim |
| `JoinRoom.RoomPathsAreDistinct` | apps/frontend/src/components/room/JoinRoom.tsx:77 | two room codes give the same path iff they are equal |
| `JoinRoom.JoinRoomForm.constructor` | apps/frontend/src/components/room/JoinRoom.tsx:18-25 | the form starts with empty fields, no messages and nothing emitted |
| `JoinRoom.JoinRoomForm.HandleSubmit` | apps/frontend/src/components/room/JoinRoom.tsx:50-71 | the final error state and the emitted requests are those of `SubmitOutcome` on the error state shown before the submit |
| `EndToEnd.SubmittedRoomIsNavigated` | apps/frontend/src/components/room/JoinRoom.tsx:68-78 | a request the form emits comes back to its sender as exactly one acknowledgement; every acknowledgement the join delivers carries a payload whose navigation path names the typed (untrimmed) room code |
| `EndToEnd.TwoPartyCallDeliveries` | apps/signaling-server/src/index.ts:13-30 | from the handlers' steps alone: A and B join `r1`, A calls B, B answers, A leaves, B's candidate for A is dropped; exactly five deliveries result, in order |
| `EndToEnd.TwoPartyCall` | apps/signaling-server/src/index.ts:13-34 | the same run through the `Server` class yields exactly those five deliveries |

## Left out

- `apps/frontend/src/components/room/Room.tsx`: every step awaits browser APIs (`getUserMedia`, `RTCPeerConnection`) or wires React effects and socket listeners. It has no candidate queue, no end-call path and no glare handling, and none is modelled.
- `apps/frontend/src/services/peer.services.ts`: a wrapper over the browser's `RTCPeerConnection` and its STUN configuration; its behaviour lives in the browser.
- `apps/frontend/src/context/SocketProvider.tsx` and `apps/frontend/src/App.tsx`: context and router wiring only. The socket's presence is the parameter `hasSocket`. `RoomCodeOfPath` reads a path back by stripping the `/room/` prefix; it does not model react-router's segment matching.
- socket.io's transport, the port and CORS options, and all console logging.
- Delivery over the network: the outbox records what the relay hands to each connection, not when or whether a browser receives it.
- Malformed payloads: the model takes `email`, `roomCode`, `to` and the forwarded values as strings. Missing fields (`undefined`) and non-string values are not modelled.
- JavaScript strings holding lone surrogates: Dafny characters are Unicode scalar values.
- JSX rendering, the `isLoading` flag, and the inputs' `onChange` handlers: `JoinRoomForm.email` and `JoinRoomForm.roomCode` are assigned directly.
- The `room:join` listener registration (`socket.on`/`off` in the effect): only the handler's path is modelled.
- Concurrency: the relay processes one event at a time, and the model is a sequence of handler calls.
