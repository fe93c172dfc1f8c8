# Presence registry and event router of a Socket.IO chat/call relay

The server keeps one registry, `users`, mapping the identity a client
announced with `register` to the id of the socket it announced it on. Every
other socket event is routed through that registry: direct and group
messages become `notification` events, `typing`/`stopTyping` are forwarded to
a direct-chat partner or to the other members of a group, and voice-call
signalling (`incomingCall`, `callAccepted`, `callRejected`, `callCanceled`)
is forwarded to the socket of the named party, with a `callFailed` back to
the caller when the callee is not registered.

The model has three modules (plus `Wrappers`, which holds `Option`):

- `Presence` (presence.dfy): identities, socket ids and the registry as a
  `map<UserId, SocketId>`; `Unbind` is the registry after a socket closes.
- `Routing` (routing.dfy): the payloads, the emitted `Delivery` values
  (target socket, event name, payload), the inbound `Request`s, one function
  per handler giving the deliveries it makes, `Route` dispatching on the
  request, and the lemmas about them.
- `Server` (server.dfy): the class `Relay` with the fields `users` and
  `outbox`. Each socket handler is a method. Only `Register` and `Disconnect`
  may modify `users`; every routing method may modify only `outbox`, and it
  appends exactly `Route(users, request)`. The `members.forEach` loops are the
  loop of `Broadcast`, and the scan over `Object.keys(users)` is the loop of
  `Disconnect`. Four client methods run event sequences through a fresh
  `Relay` and state what is delivered.

Modelling choices:

- A socket id is a non-empty string. Socket.IO never hands out an empty id,
  so the JavaScript truthiness test `if (users[x])` is the same as "`x` is
  registered".
- `callFailed` is emitted to `users[sender]` without checking it. A
  `Delivery`'s target is therefore an `Option`. `None` stands for
  `io.to(undefined)`, which no socket receives.
- The `members` of `typing` and `stopTyping` is an `Option` because the code
  tests `!members`. The `members` of `sendGroupMessage` is always present.
- The code keeps no call-session state. Accept, reject and cancel are plain
  forwards, so there are no Ringing or terminal states in the model.
- Group deliveries follow the order of the member list, as `forEach` does.
  Duplicate entries in the list give duplicate deliveries.
- `Route` has one delivery list per inbound event; the lemmas about every
  handler are stated once against it.

## Model

| member | source | states |
|---|---|---|
| `Presence.Unbind` | server.js:166-172 | after a socket closes, no identity is bound to it; every surviving entry is unchanged; every entry bound to another socket survives |
| `Presence.ReconnectSurvivesStaleClose` | server.js:20-24 | re-registering an identity on a newer socket overwrites the old binding: the older socket's close keeps the newer binding, and the newer socket's close unbinds the identity even while the older socket is open |
| `Routing.Recipients` | server.js:49-61 | the members a group loop emits to are all in the member list, none is the sender and all are registered |
| `Routing.RecipientsMultiplicity` | server.js:49-61 | each registered member other than the sender is reached once per occurrence in the list; the sender and unregistered members are never reached |
| `Routing.RecipientsAppend` | server.js:49-61 | the loop keeps list order: the members reached from a concatenation are those of the first list followed by those of the second |
| `Routing.FanOutTargets` | server.js:49-61 | a group loop's delivery goes to a socket exactly when that is the socket of a registered member other than the sender, always with the same event and payload |
| `Routing.FanOutSkipsSender` | server.js:50 | the sender's socket receives nothing from a group loop unless another registered identity shares it |
| `Routing.DirectMessage` | server.js:26-40 | `sendMessage` makes one `notification` of type "dm" to the receiver's socket if the receiver is registered, and none otherwise |
| `Routing.GroupMessageTargets` | server.js:42-63 | `sendGroupMessage` delivers a group `notification` to a socket exactly when it is the socket of a listed, registered member other than the sender |
| `Routing.GroupMessagePerMember` | server.js:42-63 | `sendGroupMessage` makes one delivery per reached member, in list order, reaching each registered non-sender member once per listing and nobody else |
| `Routing.TypingSignal` | server.js:65-91 | `typing` in a "dm" chat reaches at most the receiver; in a "group" chat it is the group loop (a missing or empty list gives nothing); for any other chat type nothing is sent |
| `Routing.StopTypingSignal` | server.js:93-117 | `stopTyping` is addressed as `typing` and carries no payload |
| `Routing.CallRequest` | server.js:119-140 | `incomingCall` makes exactly one delivery: one `incomingCall` to a registered callee and no `callFailed`, or else no `incomingCall` and one `callFailed` "User not connected" to `users[sender]` |
| `Routing.CallForward` | server.js:142-164 | accept, reject and cancel each make at most one delivery, to `users[receiver]`, echoing sender and receiver under the same event name |
| `Routing.Route` | server.js:20-172 | dispatch by inbound event: each handler emits only under its own event name, and `incomingCall` answers with `callFailed` exactly when the callee is not registered |
| `Routing.RouteTargetsRegistered` | server.js:26-164 | every delivery of every handler targets a socket bound in the registry; only a `callFailed` to an unregistered caller has no target |
| `Routing.ClosedSocketUnreachable` | server.js:166-172 | after a socket's close is handled, no event routed afterwards reaches that socket |
| `Server.Relay.constructor` | server.js:15 | the registry starts empty and nothing has been emitted |
| `Server.Relay.Emit` | server.js:32-36 | one `io.to(...).emit(...)` appends one delivery to the outbox |
| `Server.Relay.Register` | server.js:20-24 | the identity now maps to this socket, every other identity's lookup is unchanged, and the outbox is untouched |
| `Server.Relay.Disconnect` | server.js:166-172 | the registry becomes `Unbind` of the old one: the closing socket is no longer bound, and every other binding is unchanged |
| `Server.Relay.Broadcast` | server.js:49-61 | the loop over the members appends exactly the group fan-out, in list order, and leaves the registry alone |
| `Server.Relay.SendMessage` | server.js:26-40 | appends exactly the deliveries of `sendMessage`; the registry is unchanged |
| `Server.Relay.SendGroupMessage` | server.js:42-63 | appends exactly the deliveries of `sendGroupMessage`; the registry is unchanged |
| `Server.Relay.Typing` | server.js:65-91 | appends exactly the deliveries of `typing`, including the early return on a missing or empty member list |
| `Server.Relay.StopTyping` | server.js:93-117 | appends exactly the deliveries of `stopTyping` |
| `Server.Relay.IncomingCall` | server.js:119-140 | appends exactly the delivery of `incomingCall`, ringing the callee or failing back to the caller |
| `Server.Relay.CallAccepted` | server.js:142-148 | appends exactly the forward of `callAccepted` to the caller named in `receiver` |
| `Server.Relay.CallRejected` | server.js:150-156 | appends exactly the forward of `callRejected` to the caller named in `receiver` |
| `Server.Relay.CallCanceled` | server.js:158-164 | appends exactly the forward of `callCanceled` to the callee named in `receiver` |
| `Server.DirectMessageScenario` | server.js:26-40 | a message to a connected user reaches that user's socket; after that socket closes, the same message reaches nobody |
| `Server.GroupMessageScenario` | server.js:42-63 | a group message reaches a listed member once per listing, and reaches neither the sender nor an unconnected member |
| `Server.CallScenario` | server.js:119-148 | a call to a connected callee rings it once and its acceptance reaches the caller once; a call to an unconnected identity gives one `callFailed` to the caller |
| `Server.ReconnectScenario` | server.js:166-172 | a user who re-registered on a new socket stays reachable there after the old socket closes |

## Left out

- The Express app, the HTTP server, the CORS options and `server.listen`
  (server.js:1-13, 175), including the log line that names port 4000 while the
  server listens on 4007: transport set-up with no effect on routing.
- Socket.IO itself: establishing a connection is a socket id passed as a
  parameter, and `io.to(x).emit(e, p)` is appending `Delivery(x, e, p)` to the
  outbox. What Socket.IO does with an undefined room is not modelled beyond
  "no socket".
- Every `console.log`: output only.
- Concurrency: Node runs each handler to completion on one thread, so the
  model is sequential.
- JavaScript object-key behaviour: prototype keys such as `__proto__`, and the
  conversion of a non-string or missing `userId`, `receiver` or `sender` to a
  key such as "undefined". Identities are strings.
- Malformed payloads, which make the handlers throw a TypeError in the
  source: every handler destructures its payload (server.js:26, 44, 65, 95,
  119, 142, 150, 158), so an event emitted with no payload throws;
  `sendGroupMessage` throws when `members` is missing or not an array
  (server.js:49); `typing` and `stopTyping` throw when `members` is truthy but
  not an array, such as a string or an object, since it passes the guards at
  server.js:75 and 102 and then `members.forEach` fails at server.js:80 and 107.
  Here a `Request` always carries every field, `members` is always a list, and
  the typing `memberList` is either absent or a list, so none of these throws
  is represented.
- The `sender` field of `sendMessage` is read but not used by the code; the
  model takes it and ignores it.
