# remotelinker: peer negotiation, signaling relay and chat helpers

remotelinker is a browser chat room. Peers talk over WebRTC data channels, and a
small socket.io server relays the WebRTC signaling between them. This project
models three parts of it and proves properties of each.

- **The room page's per-peer negotiation engine** (`web/src/pages/ChatRoom.tsx`).
  The page keeps one record per remote socket id. That record is spread over
  mutable `Map` refs:
  - the `RTCPeerConnection`;
  - the queue of ICE candidates that arrived before a remote description;
  - the `makingOffer` flag;
  - the ICE-restart attempt counter and in-flight flag;
  - the "chat" and "file" data-channel registries.

  The handlers read and update these maps. They implement WebRTC "perfect
  negotiation" (a polite/impolite tie-break for offers that cross), a FIFO
  drain of queued candidates, ICE restarts with exponential backoff, and the
  chat fan-out.
- **The signaling relay** (`server/index.js`). It has three socket.io handlers
  over the adapter's room directory and each connection's `socket.data`.
- **The avatar helpers** (`web/src/utils/chat/utils.ts`). `colorFromId` is an
  int32 rolling hash turned into an HSL colour. `getFirstWord` returns the
  upper-cased first character of the trimmed name.

## Layout

- `wrappers.dfy` (`Wrappers`): `Option` and an `Outcome` for operations that
  may throw.
- `signaling.dfy` (`Signaling`): the wire shapes.
  - The signal envelope has three independent optional fields: offer, answer
    and candidate.
  - The `join-room` value is either a bare string or `{roomID, username}`.
  - It also defines the relay's events and the client's emits, and JavaScript
    truthiness of an optional string.
- `js_string.dfy` (`JsString`): JavaScript strings as UTF-16 code units.
  - JavaScript's `<` on strings is code-unit lexicographic order.
  - `String.prototype.trim` removes the JavaScript whitespace set.
- `chat_utils.dfy` (`ChatUtils`): `colorFromId` and `getFirstWord`.
  - The `| 0` reduction to int32 is written out explicitly.
  - `ColorFromId` is a method whose loop is proved against the fold `Hash`.
- `peer_transport.dfy` (`PeerTransport`): the browser's transport, reduced to
  the operations the page calls.
  - An `RTCPeerConnection` is a value: its signaling state, current and
    pending descriptions, applied candidates and opened channel labels.
  - The offer/answer operations may fail. Their rules cover only the states
    the page reaches. In particular, setting a remote offer in
    have-local-offer is rejected here; the page never does it, because
    `ChatRoom.tsx:254` runs on a stable connection (after the rollback).
  - An `RTCDataChannel` is a class. Its label is fixed, the browser changes
    its ready state, and `send` records every payload.
- `negotiation.dfy` (`Negotiation`): the page's state as one `SessionState`
  record, with one function per handler and the lemmas about them.
  - What the browser decides during a handler comes in as a `Browser` value:
    the offer or answer it creates, and the candidates `addIceCandidate`
    refuses.
  - A pending `setTimeout` is a `Timer` in the state, fired by `FireTimer`.
- `chat_room.dfy` (`ChatRoom`): class `Session`, the page's refs as mutable
  fields.
  - The channel registries hold `DataChannel` objects.
  - Each handler is a method. Its `ensures` ties the new state to the
    matching `Negotiation` function of the old state: `State() == F(old(State()), …)`.
  - Most handlers also carry `old(Valid()) ==> Valid()`.
  - Every handler also states what happens to the channel registries and to
    the `created` counter. Only `startWebRTC` (and so `user-connected`) adds
    fresh channel objects, and only for missing registrations. Only a close
    removes an entry.
  - `processQueuedCandidates` is a `while` loop that consumes the queue.
  - Teardown closes the connections in a loop.
  - `sendChat` is a loop over the chat registry that calls `send` on each
    open channel.
- `relay.dfy` (`Relay`): the relay's state as a value and one function per
  handler, with lemmas on delivery.
  - The state is the adapter's rooms, each connection's recorded data, and an
    outbox of emits, each with the set of connections it reaches.
  - Class `RelayServer` holds the same three fields. Its handler methods
    update them in place.

### Notes on the code's behaviour

Politeness: `ChatRoom.tsx:234` (`isPolite = socket.id < data.sender`) makes
the side whose id sorts lower the **polite** one. `Negotiation.GlareConverges`
proves that the glare resolves: the lower id answers, and the higher id's
offer wins.

The relay does no validation of `join-room` or `signal` payloads. The model's
join value is always one of the two shapes the code distinguishes
(`server/index.js:22-24`).

socket.io addressing: every connection is in the room named after its own
id.
- `io.to(data.target)` addresses the room named `data.target`. A signal
  normally reaches exactly that connection. It also reaches any connection
  that joined a chat room of that name, and the model keeps this behaviour.
  `Relay.SignalReachesOnlyTarget` states the single-recipient case.
- `socket.to(room).emit` excludes the members of the room named after the
  sender's id, not only the sender (`Relay.BroadcastFrom`). So a connection
  that joined a chat room named after another connection's id does not hear
  that connection's `user-connected` and `user-disconnect`.

## Model

| member | source | states |
|---|---|---|
| ChatRoom.Session.constructor | web/src/pages/ChatRoom.tsx:79-83 | a new page session has all its maps empty, no socket id, and satisfies the session invariant |
| ChatRoom.Session.UpsertUser | web/src/pages/ChatRoom.tsx:88-94 | the user map is updated with the name and no peer record or channel registry changes |
| ChatRoom.Session.DeleteUser | web/src/pages/ChatRoom.tsx:96-102 | the user's entry is removed; the peer connection and queue stay; the invariant is kept |
| ChatRoom.Session.InitPeerConnection | web/src/pages/ChatRoom.tsx:141-194 | the session becomes `InitPeer` of the old one: an existing record is kept as is, a new id gets a fresh connection, an empty queue and a false flag |
| ChatRoom.Session.ProcessQueuedCandidates | web/src/pages/ChatRoom.tsx:380-395 | the loop leaves the session equal to `Drain` of the old one: the queue is emptied, and every queued candidate is applied or logged, in order |
| ChatRoom.Session.OfferPart | web/src/pages/ChatRoom.tsx:240-266 | the offer branch stores what `OfferBranch` computes for the peer and reports whether the handler falls through, returns or throws |
| ChatRoom.Session.AnswerPart | web/src/pages/ChatRoom.tsx:269-272 | the answer branch stores what `AnswerBranch` computes and reports the flow |
| ChatRoom.Session.CandidatePart | web/src/pages/ChatRoom.tsx:275-283 | the candidate branch stores what `CandidateBranch` computes and reports the flow |
| ChatRoom.Session.TryBlock | web/src/pages/ChatRoom.tsx:238-287 | running the three independent `if`s in order, stopping at the first return or throw, stores exactly what `Envelope` computes |
| ChatRoom.Session.SignalHandler | web/src/pages/ChatRoom.tsx:220-287 | the `signal` handler leaves the session equal to `Negotiation.OnSignal` of the old one |
| ChatRoom.Session.OnSignal | web/src/pages/ChatRoom.tsx:220-287 | as `SignalHandler`, and the session invariant is preserved |
| ChatRoom.Session.SetupDataChannel | web/src/pages/ChatRoom.tsx:397-406 | a channel is registered under the peer in the chat or file registry by its label, and in neither registry for any other label; the invariant is kept |
| ChatRoom.Session.ChannelClosed | web/src/pages/ChatRoom.tsx:415-423 | a channel's close removes the peer from both registries and changes nothing else |
| ChatRoom.Session.OnChatMessage | web/src/pages/ChatRoom.tsx:427-456 | a message on a "chat" channel appends one text entry attributed to the peer; a message on any other channel changes nothing |
| ChatRoom.Session.OpenChannel | web/src/pages/ChatRoom.tsx:307-313 | `createDataChannel` plus `setupDataChannel`: a fresh channel with the label is opened on the connection and registered |
| ChatRoom.Session.OpenMissingChannels | web/src/pages/ChatRoom.tsx:307-314 | a fresh chat or file channel is created exactly when none is registered for the peer |
| ChatRoom.Session.MakeOffer | web/src/pages/ChatRoom.tsx:316-330 | raises `makingOffer`, tries the offer, and lowers the flag whatever the outcome; equals `Negotiation.MakeOffer` |
| ChatRoom.Session.TryOffer | web/src/pages/ChatRoom.tsx:319-327 | sets the local offer and emits it, or logs the failure; equals `Negotiation.TryOffer` |
| ChatRoom.Session.StartWebRTC | web/src/pages/ChatRoom.tsx:302-333 | the session becomes `Negotiation.StartWebRTC` of the old one, with fresh channel objects for the missing registrations; registered channel objects are kept and `created` is unchanged; the invariant is kept |
| ChatRoom.Session.OnConnect | web/src/pages/ChatRoom.tsx:205-210 | records the own id and name and emits `join-room`; the invariant is kept |
| ChatRoom.Session.OnUserConnected | web/src/pages/ChatRoom.tsx:213-217 | records the newcomer and starts a connection to it; `created` advances by one and only the newcomer's missing registrations get fresh channel objects; the invariant is kept |
| ChatRoom.Session.OnLocalCandidate | web/src/pages/ChatRoom.tsx:152-159 | a gathered candidate is signalled to the peer and a null candidate is not; the invariant is kept |
| ChatRoom.Session.OnIceState | web/src/pages/ChatRoom.tsx:162-173 | connected or completed resets the attempts, failed schedules a restart, and other states change nothing; the invariant is kept |
| ChatRoom.Session.ScheduleIceRestart | web/src/pages/ChatRoom.tsx:337-356 | the session becomes `ScheduleRestart` of the old one |
| ChatRoom.Session.HandleIceRestart | web/src/pages/ChatRoom.tsx:358-375 | the session becomes `Negotiation.HandleIceRestart` of the old one |
| ChatRoom.Session.FireTimer | web/src/pages/ChatRoom.tsx:349-355 | a pending timeout runs the restart and then clears the in-flight flag; the invariant is kept |
| ChatRoom.Session.CloseAll | web/src/pages/ChatRoom.tsx:128-130 | the loop closes exactly the connections in the peer map |
| ChatRoom.Session.Teardown | web/src/pages/ChatRoom.tsx:126-134 | the cleanup closes every connection and clears the peer, queue and flag maps; the invariant is kept |
| ChatRoom.Session.SendChat | web/src/pages/ChatRoom.tsx:459-485 | the message is appended once to the own list, and every open chat channel receives the payload exactly once while closed ones receive nothing; nothing is sent without a socket id or a user name |
| Negotiation.InitialValid | web/src/pages/ChatRoom.tsx:79-83 | the empty session satisfies the invariant: every peer has a queue and a flag, a peer with a remote description has an empty queue, restart flags match the pending timers, and the registries hold only channels of their label |
| Negotiation.UsersDecideNames | web/src/pages/ChatRoom.tsx:88-102 | after an upsert with a name the displayed name is that name; without a name, or after a delete, it falls back to the id |
| Negotiation.UpsertUserValid | web/src/pages/ChatRoom.tsx:88-94 | updating the user map keeps the invariant |
| Negotiation.InitPeer | web/src/pages/ChatRoom.tsx:141-148 | afterwards the id has a connection, and no other id gained one |
| Negotiation.InitPeerSpec | web/src/pages/ChatRoom.tsx:141-148 | initialisation is idempotent; an existing record is returned unchanged; a new id gets a fresh connection, an empty queue and a false `makingOffer`, and nothing else changes |
| Negotiation.InitPeerValid | web/src/pages/ChatRoom.tsx:141-148 | initialisation keeps the invariant |
| Negotiation.DrainQueueSpec | web/src/pages/ChatRoom.tsx:380-395 | the drain empties the queue; with a remote description it applies the accepted candidates in queue order and logs each refused one; without one it logs every candidate; nothing else on the connection changes |
| Negotiation.AcceptedRefusedSplit | web/src/pages/ChatRoom.tsx:387-394 | every queued candidate occurrence is either applied or logged as failed, exactly once (the two lists' multisets add up to the queue's) |
| Negotiation.ExactlyOnePolite | web/src/pages/ChatRoom.tsx:234 | of two distinct ids exactly one side is polite, and no id is polite towards itself |
| Negotiation.OfferBranch | web/src/pages/ChatRoom.tsx:240-266 | the branch goes on exactly when the offer does not collide, or this side is polite and can roll back (a pending description exists); it then emits exactly one answer; an impolite side facing a collision returns with nothing changed |
| Negotiation.AnswerBranch | web/src/pages/ChatRoom.tsx:269-272 | the branch goes on exactly when an own offer is open, and otherwise throws with nothing changed |
| Negotiation.Envelope | web/src/pages/ChatRoom.tsx:238-283 | one envelope emits an answer exactly when it carries an offer that is not dropped, and nothing else |
| Negotiation.Prepare | web/src/pages/ChatRoom.tsx:222-225 | before the `try`, the sender has a connection and no emit or log has happened |
| Negotiation.PrepareKnown | web/src/pages/ChatRoom.tsx:222-225 | for a known sender the prelude only records the sender's name |
| Negotiation.SignalWithoutSocket | web/src/pages/ChatRoom.tsx:220-231 | without a socket id the handler sends nothing and only warns, records the sender's name and initialises a missing sender record; existing peer records, queues and flags are kept |
| Negotiation.SignalEmitsAtMostOneAnswer | web/src/pages/ChatRoom.tsx:220-287 | a `signal` event emits one answer to the sender exactly when it carries an offer that is accepted, and nothing otherwise |
| Negotiation.OnSignalValid | web/src/pages/ChatRoom.tsx:220-287 | the `signal` handler keeps the invariant |
| Negotiation.OfferBranchSpec | web/src/pages/ChatRoom.tsx:248-265 | an accepted offer (with a rollback first on collision) ends stable, with the offer as remote and the answer as local description, and with the queue drained in order |
| Negotiation.ImpoliteDropsCollidingOffer | web/src/pages/ChatRoom.tsx:243-245 | an impolite side ignores a colliding offer: no answer, no description change, and no later branch of the envelope runs |
| Negotiation.AcceptedOfferSpec | web/src/pages/ChatRoom.tsx:248-265 | at handler level, an accepted offer stabilises the connection, drains its queue in order and emits exactly one answer to the sender |
| Negotiation.AnswerBranchSpec | web/src/pages/ChatRoom.tsx:269-272 | an answer to an open offer stabilises the connection, keeps the local offer, and drains the queue in order |
| Negotiation.AnswerSpec | web/src/pages/ChatRoom.tsx:269-286 | an incoming answer is applied and drains the queue when an own offer is open, and is otherwise caught and logged with nothing else changed |
| Negotiation.AnswerDrainsQueue | web/src/pages/ChatRoom.tsx:269-272 | an answer for an open offer applies exactly the accepted queued candidates and leaves the queue empty |
| Negotiation.CandidateBranchSpec | web/src/pages/ChatRoom.tsx:275-283 | without a remote description a candidate is queued and not applied; with one it is applied at once, or it throws if refused |
| Negotiation.CandidateSpec | web/src/pages/ChatRoom.tsx:275-286 | at handler level: a candidate is queued, applied, or its failure logged, according to the remote description |
| Negotiation.CandidatesQueueInOrder | web/src/pages/ChatRoom.tsx:275-279 | candidates that arrive before a remote description are queued in arrival order and the connection is untouched |
| Negotiation.CandidatesBeforeAnswer | web/src/pages/ChatRoom.tsx:269-283 | candidates that arrive before the answer are all applied, in arrival order, once the answer arrives, and the queue ends empty |
| Negotiation.GlareConverges | web/src/pages/ChatRoom.tsx:234-265 | when two peers' offers cross, the polite side answers and the impolite side ignores the offer; after the answer arrives both connections are stable with matching descriptions |
| Negotiation.RegisterChannelSpec | web/src/pages/ChatRoom.tsx:400-406 | a "chat" channel goes into the chat registry, a "file" channel into the file registry, any other label into neither |
| Negotiation.RegisterChannelLabelled | web/src/pages/ChatRoom.tsx:400-406 | registering keeps each registry holding only channels of its own label |
| Negotiation.ChannelClosedSpec | web/src/pages/ChatRoom.tsx:415-423 | a close removes the peer from both registries, keeps every other entry, and keeps the labelling |
| Negotiation.MessagesAttributed | web/src/pages/ChatRoom.tsx:430-446 | a received chat message is appended with the sender's id, its recorded name (or its id), and the payload's text and time; a sent one is appended with the own id and name, and nothing at all happens without a socket id or name |
| Negotiation.OpenChannelSpec | web/src/pages/ChatRoom.tsx:307-313 | opening a channel adds its label to the connection and registers it by label; nothing else changes |
| Negotiation.OpenMissingChannelsSpec | web/src/pages/ChatRoom.tsx:307-314 | the chat and the file channel are each opened only when none is registered for the peer; the invariant is kept |
| Negotiation.MakeOfferSpec | web/src/pages/ChatRoom.tsx:316-330 | `makingOffer` is false afterwards whether or not the offer failed; a set offer leaves the connection with the offer as local description and emits it once; a failure is logged and emits nothing |
| Negotiation.MakeOfferFrame | web/src/pages/ChatRoom.tsx:316-330 | making an offer touches no queue and no other peer's connection |
| Negotiation.MakeOfferValid | web/src/pages/ChatRoom.tsx:316-330 | making an offer keeps the invariant |
| Negotiation.StartWebRTCChannels | web/src/pages/ChatRoom.tsx:302-314 | `startWebRTC` registers and opens a chat or file channel only when none is registered for the peer, and leaves the queues as initialisation made them |
| Negotiation.StartWebRTCSpec | web/src/pages/ChatRoom.tsx:302-333 | after `startWebRTC` the flag is false; the offer is set and emitted to the peer exactly once, or the failure is logged |
| Negotiation.StartWebRTCValid | web/src/pages/ChatRoom.tsx:302-333 | `startWebRTC` keeps the invariant |
| Negotiation.BackoffDelay | web/src/pages/ChatRoom.tsx:345 | the restart delay never exceeds 15000 ms |
| Negotiation.BackoffDelays | web/src/pages/ChatRoom.tsx:345 | the five permitted restarts wait 1000, 2000, 4000, 8000 and 15000 ms |
| Negotiation.ScheduleRestartSpec | web/src/pages/ChatRoom.tsx:337-347 | at five attempts or more the call only warns; with a restart in flight it does nothing; otherwise it increments the attempts, sets the flag and schedules one timeout with the backoff delay; nothing else changes |
| Negotiation.RestartRound | web/src/pages/ChatRoom.tsx:337-356 | a failure schedules one timeout; a second failure while in flight schedules none; firing the timeout clears the flag and keeps the count |
| Negotiation.RestartLimitAndReset | web/src/pages/ChatRoom.tsx:162-173 | at the ceiling a failure schedules nothing; connected resets the attempts so that the next failure waits 1000 ms |
| Negotiation.ScheduleRestartValid | web/src/pages/ChatRoom.tsx:337-356 | scheduling keeps the invariant, which includes the flag being set exactly while a timeout is pending |
| Negotiation.OnIceStateValid | web/src/pages/ChatRoom.tsx:162-173 | an ICE state change keeps the invariant |
| Negotiation.FireTimerRestarts | web/src/pages/ChatRoom.tsx:349-355 | a fired timeout is the restart followed by clearing the flag, and the timeout is no longer pending |
| Negotiation.FireTimerValid | web/src/pages/ChatRoom.tsx:349-355 | firing a timeout keeps the invariant |
| Negotiation.HandleIceRestart | web/src/pages/ChatRoom.tsx:358-375 | a restart changes only the connection, the emits and the log |
| Negotiation.RestartSets | web/src/pages/ChatRoom.tsx:358-371 | a restart offer that can be set becomes the local description and is emitted to the peer |
| Negotiation.RestartFails | web/src/pages/ChatRoom.tsx:372-374 | a restart offer that cannot be set is only logged |
| Negotiation.HandleIceRestartValid | web/src/pages/ChatRoom.tsx:358-375 | a restart keeps the invariant |
| Negotiation.TeardownSpec | web/src/pages/ChatRoom.tsx:126-134 | the cleanup closes every known connection, empties the peer, queue and flag maps, forgets the socket id, and a second cleanup changes nothing |
| Negotiation.TeardownValid | web/src/pages/ChatRoom.tsx:126-134 | the cleanup keeps the invariant |
| Negotiation.NothingAfterTeardown | web/src/pages/ChatRoom.tsx:126-134 | after the cleanup, neither a late restart timeout nor a late signal emits anything |
| PeerTransport.SetLocalOffer | web/src/pages/ChatRoom.tsx:319-320 | a local offer can be set exactly when no remote offer is open; it becomes the local description and leaves the remote side and the candidates alone |
| PeerTransport.SetRemoteOffer | web/src/pages/ChatRoom.tsx:254 | a remote offer can be set exactly when no local offer is open |
| PeerTransport.SetLocalAnswer | web/src/pages/ChatRoom.tsx:257-258 | a local answer can be set exactly while a remote offer is open, and returns the connection to stable |
| PeerTransport.SetRemoteAnswer | web/src/pages/ChatRoom.tsx:270 | a remote answer can be set exactly while a local offer is open, and keeps the local offer |
| PeerTransport.Rollback | web/src/pages/ChatRoom.tsx:250 | a rollback succeeds exactly outside stable and returns to stable |
| PeerTransport.AddCandidate | web/src/pages/ChatRoom.tsx:281 | a candidate is applied exactly when a remote description exists and the browser accepts it, and is then appended to the applied list |
| PeerTransport.OperationsKeepWellFormed | web/src/pages/ChatRoom.tsx:248-283 | every transport operation keeps pending descriptions matched to the signaling state |
| PeerTransport.RollbackUndoesOffer | web/src/pages/ChatRoom.tsx:248-252 | rolling back an offer set from stable restores the connection |
| PeerTransport.OfferAnswerExchange | web/src/pages/ChatRoom.tsx:254-270 | offer then answer, in either role, ends stable with the two descriptions in place |
| PeerTransport.DataChannel.Send | web/src/pages/ChatRoom.tsx:482 | `send` records the payload and leaves the ready state alone |
| Relay.LeaveAll | server/index.js:52 | on disconnect the connection leaves every room, and rooms left empty disappear |
| Relay.EmptyValid | server/index.js:11-18 | the relay starts with no rooms and no connections, satisfying its invariant |
| Relay.ConnectValid | server/index.js:18 | a new connection keeps the invariant |
| Relay.JoinRoomSpec | server/index.js:22-40 | a join records room, id and name (no name for a bare string) and adds the joiner to exactly that room; every earlier member of the room receives one `user-connected` unless it is in the room named after the joiner's id, and the joiner receives none |
| Relay.JoinAloneIsSilent | server/index.js:32-34 | a joiner alone in its room causes no emit |
| Relay.JoinRoomValid | server/index.js:22-40 | joining keeps the invariant |
| Relay.SignalSpec | server/index.js:43-50 | a signal changes no room or connection data, and every member of the target's room receives the payload with the sender's id and recorded name |
| Relay.SignalToUnknownTarget | server/index.js:45-49 | a signal to an id that is not a room is dropped without effect |
| Relay.JoinSkipsOwnRoomMembers | server/index.js:36-39 | a member of the chat room that also joined the room named after the joiner's id receives nothing from the join |
| Relay.SignalReachesOnlyTarget | server/index.js:45-49 | when only the target is in its own-id room, exactly the target receives the signal |
| Relay.SignalValid | server/index.js:43-50 | relaying keeps the invariant |
| Relay.DisconnectSpec | server/index.js:52-58 | the connection leaves every room, and the remaining members of its chat room that are not in the room named after its id, and only they, receive `user-disconnect`, but only if it had joined a room |
| Relay.DisconnectValid | server/index.js:52-58 | a disconnect keeps the invariant |
| Relay.TwoJoinScenario | server/index.js:22-40 | when A then B join room r1, A receives exactly one `user-connected` for B, and B receives nothing |
| Relay.RelayServer.constructor | server/index.js:11-18 | the server starts with the empty relay state |
| Relay.RelayServer.OnConnection | server/index.js:18 | a connection is added with empty data and its own-id room |
| Relay.RelayServer.OnJoinRoom | server/index.js:22-40 | the fields become `JoinRoom` of the old state |
| Relay.RelayServer.OnSignal | server/index.js:43-50 | the fields become `Signal` of the old state |
| Relay.RelayServer.OnDisconnect | server/index.js:52-58 | the fields become `Disconnect` of the old state |
| ChatUtils.ToInt32 | web/src/utils/chat/utils.ts:37 | `| 0` lands in the int32 range, is congruent to its input modulo 2^32, and leaves int32 values unchanged |
| ChatUtils.Hash | web/src/utils/chat/utils.ts:36-37 | the rolling hash stays in the int32 range after every step |
| ChatUtils.HashIsReducedPolyHash | web/src/utils/chat/utils.ts:36-37 | the step-wise reduced hash equals the reduction of the exact polynomial hash |
| ChatUtils.Hue | web/src/utils/chat/utils.ts:38 | the hue is always in 0..359 |
| ChatUtils.EmptyIdHue | web/src/utils/chat/utils.ts:36-38 | the empty id hashes to 0 and gets hue 0 |
| ChatUtils.DecimalRoundTrip | web/src/utils/chat/utils.ts:39 | the printed hue reads back as the hue |
| ChatUtils.ColorFromId | web/src/utils/chat/utils.ts:35-40 | the loop computes the colour `hsl(<hue> 70% 55%)` of the id's hue |
| ChatUtils.ToUpperAscii | web/src/utils/chat/utils.ts:45 | upper-casing maps exactly the letters a–z to A–Z and leaves no lower-case letter |
| ChatUtils.GetFirstWord | web/src/utils/chat/utils.ts:43-46 | a name that is all whitespace has no first character (the call throws); otherwise the result is the upper-cased first non-whitespace code unit |
| JsString.TrimSpec | web/src/utils/chat/utils.ts:44 | trimming yields the empty string exactly for all-whitespace input, and otherwise neither end is whitespace |
| JsString.JsLessTrichotomy | web/src/pages/ChatRoom.tsx:234 | JavaScript's `<` on strings is irreflexive, and of two distinct strings exactly one is below the other |

## Left out

- I/O is not modelled. The socket, `console` output (kept only as a log of
  warning and error kinds), the `getStats` report logging, and the React
  state and rendering of the page are all left out.
- The content of offers, answers and candidates is left out; they are opaque
  values. What `createOffer`/`createAnswer` return and which candidates the
  browser refuses are parameters of each handler (`Browser`).
- ICE, DTLS and the channels' transport are left out. A data channel's ready
  state changes only through `DataChannel.Transition`, which stands for the
  browser.
- `setTimeout` timing is left out. A pending restart is a `Timer` holding its
  delay, and the model decides when it fires (`FireTimer`).
- The `await` points inside a handler are not interleaved with other events:
  every handler is one atomic step. In particular, `makingOffer` is only ever
  observed false by another handler, because the flag is raised and lowered
  within one `startWebRTC` step.
- `safeUUID` and `Date.now()` are parameters: the message id and the
  timestamp.
- Channel identity is a label plus the serial number of the `startWebRTC` call
  that created it.
- `JSON.stringify` and `JSON.parse` of the chat payload are left out. A payload
  is a record of text and time, and a received message is taken to parse.
- Non-string data on a chat channel is left out; the handler ignores it.
- The file-transfer stubs (`sendFile` and the "file" branch of `onmessage`)
  are left out. They have no behaviour yet. The file channel is still
  created, registered and removed like the chat channel.
- `dc.onopen` and `dc.onerror` are left out; they only log.
- `pc.ontrack` is left out; it is empty.
- The relay's Express/HTTP/CORS setup, `server.listen` and its console output
  are left out.
- The relay's connection ids are chosen by socket.io. They are a parameter of
  `Relay.Connect`, which requires a fresh, non-empty id.
- Malformed payloads to the relay are left out. The model's `join-room` value
  is either a string or an object with an optional name, and a signal request
  is a record.
- Other code, such as the room-id generation on the home page and date
  formatting, is not part of this model.
- ChatRoom.Session.SendChat: the per-channel "exactly once" is stated only
  when no channel object is registered under two peers (`Injective`). With
  one object under two ids, the source's loop would send to it twice.
- ChatRoom.Session.ProcessQueuedCandidates: the loop works on a local copy of
  the queue and stores the empty queue once at the end. The source shifts the
  shared array in place. The two agree because handlers are atomic.
- Relay.SignalReachesOnlyTarget: single-recipient delivery is stated only when
  no other connection joined a chat room named after the target id. In
  general every member of that socket.io room receives the signal
  (`Relay.SignalSpec`).
- ChatUtils.GetFirstWord: a name whose trim is empty gives `None` where the
  source throws a `TypeError`. Upper-casing covers only a–z, not the whole
  Unicode case mapping of `toUpperCase`.
- ChatUtils.ToUpperAscii: maps only a–z to A–Z. The Unicode case mapping of
  `toUpperCase` (accented letters, ß to SS, and others) is not modelled.
- PeerTransport.SetRemoteOffer: in have-local-offer it is rejected, where a
  browser rolls back implicitly. The page never sets a remote offer in that
  state.
