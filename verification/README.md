# Stranger-matching relay server, modelled in Dafny

The server pairs anonymous chat clients and relays messages between them.
All of its logic sits in socket.io's `connection` closure in `server.js`.
It has three parts:

- **Matcher** (`find-stranger`). It records the requested call type and
  appends the socket to the `waitingUsers` queue. As soon as two sockets are
  waiting, it takes the front two, makes each the other's `strangerId`, and
  sends each a `stranger-found` event carrying the other's id and call type.
- **Relay**. `webrtc-signal` goes to whatever id the payload names.
  `send-message` and `media-status-changed` go to the sender's `strangerId`,
  and are dropped when it is unset.
- **Teardown** (`handleDisconnect`, bound to both `disconnect-chat` and the
  transport's `disconnect`). It tells the stranger, clears the stranger's
  `strangerId` if the stranger is still connected, and drops the caller from
  the queue.

The model is a pure step function `Server.Step(State, Input) -> Reaction`.
`State` (module `Types`) holds four things:

- the set of live socket ids;
- `strangerId` as a map from socket id to socket id (absent means unset or
  `null`);
- `callType` as a map;
- the queue as `seq<Id>`.

A `Reaction` is the new state plus the emitted events, in emission order,
each addressed to a socket id. `Server.Run` folds `Step` over a sequence of
events. Node's event loop runs one handler at a time, so sequential
composition is the whole concurrency story.

The code does not implement the intended pairing discipline, and the model
follows the code. Under the intended discipline, pairing would always be
mutual, a paired socket would never be queued, and a second teardown would be
a no-op. In the code:

- a socket that asks twice can be paired with itself;
- a paired socket can be queued again;
- `disconnect-chat` leaves the caller's own `strangerId` set, so the pairing
  becomes one-sided and the caller can still message its former stranger;
- `disconnect-chat` followed by `disconnect` notifies the stranger twice;
- that second teardown can clear the link of a pair formed in between.

Module `Gaps` proves each of these. The invariant that does hold from a fresh
start is narrower: at most one socket waits, and a waiting socket is live and
has a call type (`Server.Inv`).

## Model

| member | source | states |
|---|---|---|
| Matcher.FindStranger | server.js:41-67 | The caller's call type becomes `data.type` and no other socket's changes. With an empty queue the caller waits at the back and nothing is emitted. Otherwise the queue with the caller appended equals the two oldest entries followed by the new queue, in the same order. Those two get each other as strangers, no other `strangerId` changes, and user1 then user2 are told the other's id and call type. |
| Relay.WebrtcSignal | server.js:72-79 | Exactly one event, addressed to the payload's `to`. It carries the sender's id as `from` and the signal untouched. The state does not change. |
| Relay.SignalIgnoresPairing | server.js:75-78 | The signal's target and payload do not depend on who is paired with whom, so any connected id can be signalled. |
| Relay.SendMessage | server.js:82-88 | The state does not change. Nothing is emitted exactly when the sender has no stranger. Otherwise one `new-message` with the text unchanged goes to the stranger. |
| Relay.MediaStatusChanged | server.js:91-96 | The state does not change. Nothing is emitted exactly when the sender has no stranger. Otherwise one `stranger-media-status` with the flag unchanged goes to the stranger. |
| Teardown.Without | server.js:114 | The filtered queue contains no entry with the id. Every other entry is kept as many times as before (multiset), and the kept entries stay in their relative order (subsequence). |
| Teardown.WithoutIdempotent | server.js:114 | Filtering an id out twice gives the same queue as filtering it once. |
| Teardown.WithoutAbsent | server.js:114 | Filtering out an id that is not queued leaves the queue unchanged. |
| Teardown.HandleDisconnect | server.js:100-117 | If the caller has a stranger, exactly one `stranger-disconnected` goes to that stranger; otherwise nothing is emitted. The stranger's `strangerId` is cleared if the stranger is live. No other `strangerId` changes, the caller's own included, unless the caller is its own stranger. The caller leaves the queue and the others keep their order. |
| Teardown.Disconnect | server.js:118 | The transport disconnect runs after the socket has left the live table. The stranger is notified and, if still live and not the caller, unpaired. The caller's own `strangerId` and every `callType` are unchanged. The caller leaves the queue, and every other entry is kept, in order. |
| Server.Accept | server.js:37-38 | A new connection joins the live table with neither `strangerId` nor `callType`. Nothing else changes and nothing is emitted. |
| Server.Step | server.js:37-120 | Events from a socket that is not connected change nothing. A connect for an id that is already live changes nothing; any connection leaves its id in the live table. |
| Server.StepPreservesInv | server.js:41-115 | Every handler keeps two facts: at most one socket waits, and a waiting socket is live and has a call type. |
| Server.RunPreservesInv | server.js:33-118 | Any sequence of events starting from such a state keeps that invariant. |
| Server.QueueHoldsAtMostOne | server.js:33-54 | From a fresh server, the queue never holds more than one socket after any event. |
| Server.StepCallTypesDefined | server.js:46-65 | From a reachable state, every `stranger-found` event carries a defined call type. |
| Server.RunCallTypesDefined | server.js:46-65 | The same holds for every `stranger-found` event emitted over any sequence of events. |
| Gaps.RepeatedRequestSelfPairs | server.js:46-58 | A socket alone in the queue that asks again is paired with itself and gets two `stranger-found` events naming itself. |
| Gaps.PairedSocketIsQueued | server.js:46-47 | A paired socket that asks again is queued while its `strangerId` is still set. |
| Gaps.EndChatIsOneSided | server.js:104-111 | After `disconnect-chat` the stranger is unpaired, but the caller still holds the stranger's id. |
| Gaps.MessageAfterEndChatIsDelivered | server.js:82-88 | After ending the chat, the caller's message still reaches the former stranger, while the stranger's reply is dropped. |
| Gaps.SecondTeardownNotifiesAgain | server.js:117-118 | `disconnect-chat` followed by `disconnect` sends `stranger-disconnected` to the former stranger twice. |
| Gaps.StaleTeardownBreaksNewPair | server.js:104-111 | The stale second teardown unpairs the former stranger from the new partner it was matched with in between. The new partner still holds it, and it gets a `stranger-disconnected`. |
| Scenarios.FifoPairing | server.js:51-65 | Requests a, b, c, d on an empty queue pair (a, b) and then (c, d). Each side gets the other's call type, and the queue ends empty. |
| Scenarios.OddOneOut | server.js:47-54 | Three requests on an empty queue leave exactly the third socket waiting. |
| Scenarios.VideoMeetsAudio | server.js:37-65 | Two fresh clients asking for video and audio are paired. Each is told the other's call type, and nobody is left waiting. |
| Scenarios.MessageReachesOnlyStranger | server.js:82-88 | A socket whose `strangerId` is set, one-sided or not, sends its message exactly to that stranger, unchanged, and nowhere else. |
| Scenarios.UnpairedRelayIsSilent | server.js:82-96 | Chat and media-status relays from a socket without a stranger emit nothing and change nothing. |
| Scenarios.StrangerLeaves | server.js:100-118 | When one side of a pair drops, the other side is told and unpaired, and its next message goes nowhere. |

## Left out

- Express app, HTTP server, CORS options and server start with `PORT` (server.js:5-29, 123-128): configuration and process I/O with no logic.
- All `console.log` calls: logging only.
- socket.io internals: the handshake, rooms, and actual delivery. Emitted events are outbox entries addressed by socket id; whether they arrive is not modelled. `user1.emit` and `io.to(id).emit` are both modelled as an entry addressed to that id.
- How socket.io maintains its live table. It is an abstract set. The transport is assumed to remove a socket from it before running the `disconnect` handler, to connect each id at most once, and to deliver no events for sockets that are not connected.
- Payload shapes other than the ones the handlers read. A missing `data` in `find-stranger` would throw in the source, and a `to` that is not a socket id (a room name, an array) would address a room. Neither is modelled. `to` is a socket id, `type` and `text` are strings, `video` is a boolean, and the WebRTC signal is an abstract type the model never inspects.
- JavaScript truthiness of `strangerId`: socket ids are never empty strings, so "set" is modelled as presence in the map.
