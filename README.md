# DrawSync client core in Dafny

This project models the logic of the DrawSync front end, a multiplayer drawing-and-guessing game.

- **`StompSession` (`websocket_service.dfy`).** The shared publish/subscribe connection. It holds:
  - the `connected` and `connecting` flags;
  - a topic → handler registry that is re-subscribed on every handshake;
  - a one-shot queue of callbacks waiting for the connection;
  - an abstract STOMP client. The client records every call made on it (activate, broker subscribe and unsubscribe, publish) and every callback and handler it runs.
- **`VoiceSignalling` (`voice_chat.dfy`).** The voice-call hook: the call lifecycle (start, leave, mute, microphone) and the dispatcher for inbound offer/answer/candidate messages.
- **`LegacySocket` (`legacy_socket.dfy`).** The older socket client: its connect guard, the draw and chat subscriptions, and the type-based routing of outgoing messages.
- **`DrawingCanvas` (`drawing_canvas.dfy`).**
  - The parser for the six-digit form of the hexadecimal colour notation (section 5.2 of CSS Color Module Level 4).
  - The brush width and opacity rules.
  - The point buffer that turns one press–move–release gesture into one published stroke.
- **`VerificationCode` (`verification_code.dfy`).** The six-slot code editor: typing, backspace focus, paste, the length guard before verifying, and the username sent with the code.
- **`AuthService` (`auth_service.dfy`).** Token and user persistence over browser storage, the access-token read, the authenticated check and the request headers.
- **`AppShell` (`app.dfy`).** The login / game / dashboard screen machine.
- **`GameScreen` (`game_view.dfy`).** The game status machine: polling, the timer topic, the start request, the view chosen from the status, and the masked word.
- **`GameChat` (`game_chat.dfy`).** Chat message normalisation, append and send.
- **`Countdown` (`timer.dfy`).** The round countdown.
- **`PlayersList` (`players_list.dfy`).** The ranking order with rank badges and crown.
- **`EditProfile` (`edit_profile.dfy`).** The profile save check.
- **`Toolbar` (`game_toolbar.dfy`).** Dragging the floating toolbar and clamping it into the viewport.

Code that keeps state in place is modelled as a class with the same fields. Each such state has a pure step function carrying the property contracts and the lemmas. Each method is proved to perform that step (`State() == Step(old(State()), …)`).

Two modules are shared:
- `Json` holds the value model: JSON values after parsing, JavaScript truthiness, property access, template-literal text, and an abstract parse/stringify codec. `Lawful` says that parsing what was stringified gives the value back.
- `Wrappers` holds `Option`.

Where the code departs from its evident intent, the model follows the code:
- **Subscribing twice to one topic while connected** leaves two live broker subscriptions, and both handlers keep receiving. Only the registry keeps the newer handler (`SubscribeTwiceWhileConnected`).
- **A topic subscribed while disconnected** is broker-subscribed twice at the handshake, with the callback queue declared empty (`SubscribedWhileDisconnectedDeliversTwice`). The same happens when a `connect` callback itself calls `subscribe`, as the drawing canvas does in src/components/DrawingCanvas.tsx:73-77. The drain runs that callback after both flags are set, so its `subscribe` takes the connected path, and the resubscription pass then subscribes the topic again (`ConnectThenSubscribeSubscribesTwice`). As written, the source never reaches that handshake code; see "Left out".
- **The disposer returned while disconnected** cannot withdraw the queued subscription (`DisconnectedDisposerLeaks`).
- **The voice peer id** is drawn once when the module loads, not per call.
- **Stale or unsolicited signalling** is ignored only while there is no peer connection. With a connection, an answer or candidate is applied whatever state the negotiation is in.
- **`onDisconnect`** never resets `connecting`.
- **`subscribe` and `send` check different flags.** `subscribe` checks the service's own `connected` flag, but `send` checks the client's. They part ways after an abnormal socket close, which ends the client's session without running `onDisconnect`. Then `subscribe` takes the connected path and throws at the client. `send` publishes nothing, and its `connect()` activates nothing (`AbortedSubscribeAndSendDiverge`).
- **A disposer from the connected path, called after the session ended,** throws at the client before it deletes the registry entry. The next handshake subscribes the handler again (`StaleDisposerKeepsSubscription`).
- **A handler that throws on the parsed body** is called a second time with the raw text, because the `try` at lines 93-96 also covers the handler call (`ThrowingHandlerGetsRawRetry`).
- **The callback queue** is read and written but never declared; here it starts empty.

## Model

| member | source | states |
|---|---|---|
| Json.Get | src/components/GameChat.tsx:32-38 | `v.key` is defined exactly for an object that has the key, and is that field |
| Json.Digits | src/components/PlayersList.tsx:86 | the rank number is written in decimal: non-empty digits whose value is the number, with no leading zero |
| StompSession.IndexOf | src/services/WebSocketService.ts:8 | the position found holds the topic and is the first such; -1 exactly when the topic is absent |
| StompSession.Lookup | src/services/WebSocketService.ts:8 | `get(t)` is nothing exactly when no entry has topic `t`, else the handler of that entry when topics are unique |
| StompSession.Set | src/services/WebSocketService.ts:67 | `set` keeps one entry per topic and adds an entry only for a new topic |
| StompSession.Delete | src/services/WebSocketService.ts:77 | `delete` keeps one entry per topic and changes nothing for an absent topic |
| StompSession.SetThenLookup | src/services/WebSocketService.ts:67 | after `set(t, h)` the topic maps to `h` (last writer wins) and every other topic maps as before |
| StompSession.DeleteThenLookup | src/services/WebSocketService.ts:77 | after `delete(t)` the topic is absent and every other topic maps as before |
| StompSession.Decode | src/services/WebSocketService.ts:93-96 | the first call of a handler gets the parsed body when parsing succeeds, and the raw body, unchanged, exactly when it fails |
| StompSession.HandlerRuns | src/services/WebSocketService.ts:93-96 | a handler is called once or twice, first with the decoded body; the second call, with the raw body, happens exactly when the body parsed and the handler threw on it |
| StompSession.RemoveSub | src/services/WebSocketService.ts:85 | cancelling a subscription removes exactly the live subscription with that id |
| StompSession.ConnectStep | src/services/WebSocketService.ts:42-59 | connected with a callback: the callback runs at once and nothing is queued. Connected without one: nothing changes. Otherwise the callback is queued last, `connecting` is set, and the client is activated only when no handshake was pending. The invariant is kept |
| StompSession.Initial | src/services/WebSocketService.ts:5-40 | the new service has activated its client once, is connecting, and has an empty registry and an empty queue |
| StompSession.SubscribeStep | src/services/WebSocketService.ts:65-89 | the registry always stores topic → handler first. Connected with a client session: one broker subscription with the next id, and a disposer that cancels it. Connected without a client session: the call throws, and only the registry write remains. Disconnected: a subscribe callback is queued and the disposer only forgets the entry |
| StompSession.UnsubscribeStep | src/services/WebSocketService.ts:75-88 | the forgetting disposer deletes the registry entry only. The cancelling one, with a client session, unsubscribes at the broker, removes exactly that live subscription and deletes the entry. Without a session it throws at the client and changes nothing |
| StompSession.SendStep | src/services/WebSocketService.ts:101-116 | publishes the stringified body exactly when the client has a session. Otherwise nothing is published and the body is dropped. While connecting, or while the service still believes it is connected, nothing changes. Else exactly one activation follows |
| StompSession.DisconnectStep | src/services/WebSocketService.ts:61-63 | the client is deactivated and that call is recorded; nothing else changes and the invariant is kept |
| StompSession.HandshakeStep | src/services/WebSocketService.ts:13-27 | after the handshake the service is connected and not connecting, the queue is empty, the registry is unchanged, and the invariant is kept |
| StompSession.DropStep | src/services/WebSocketService.ts:28-31 | after the DISCONNECT receipt both flags are clear and no subscription is live; `connecting`, the registry, the queue and the log are unchanged |
| StompSession.AbortStep | src/services/WebSocketService.ts:102-103 | an abnormal close ends the client session and its subscriptions but leaves the service's `connected` flag, `connecting`, the registry and the queue as they were |
| StompSession.MessageStep | src/services/WebSocketService.ts:92-97 | one inbound message gives one or two handler calls per live subscription to its topic, exactly one when no handler throws or the body does not parse. Each carries the decoded body or, on a retry, the raw body, and nothing else changes |
| StompSession.PendingConnectsOnlyQueue | src/services/WebSocketService.ts:50-58 | while a handshake is pending, any number of `connect(cb)` calls only queue their callbacks in call order and activate nothing |
| StompSession.ConnectsCoalesce | src/services/WebSocketService.ts:42-59 | N connects before the handshake queue all N callbacks in order and activate the client once in all, or not at all if already connecting |
| StompSession.QueueRunsInOrder | src/services/WebSocketService.ts:19 | draining runs each caller callback exactly once, in queue order (`RunCallback` runs one callback) |
| StompSession.RunQueue | src/services/WebSocketService.ts:19 | draining the queue records one action per callback and takes one subscription id per subscription it makes |
| StompSession.ResubscribeRunsNoCallback | src/services/WebSocketService.ts:23-26 | the resubscription pass runs no caller callback |
| StompSession.HandshakeDrainsQueueOnce | src/services/WebSocketService.ts:13-20 | on handshake every queued caller callback runs exactly once, in FIFO order, and the queue is left empty |
| StompSession.QueueSubscribesPerTopic | src/services/WebSocketService.ts:72-74 | draining makes one broker subscription per queued subscribe callback for the topic |
| StompSession.ResubscribePerTopic | src/services/WebSocketService.ts:23-26 | the resubscription pass subscribes each registry topic exactly once and no other topic |
| StompSession.HandshakeSubscriptionsPerTopic | src/services/WebSocketService.ts:13-27 | after a handshake a topic has one broker subscription per queued subscribe plus one if it is in the registry, when no queued caller callback calls back into the service |
| StompSession.SubscribedWhileDisconnectedDeliversTwice | src/services/WebSocketService.ts:19-74 | one subscribe before the first handshake ends with two broker subscriptions, so one message reaches the handler twice |
| StompSession.ConnectThenSubscribeSubscribesTwice | src/services/WebSocketService.ts:13-26 | a queued `connect` callback that calls `subscribe` runs after the flags are set, so it writes the registry and subscribes at once; the resubscription pass then subscribes the topic again, leaving two broker subscriptions to it, both with that handler |
| StompSession.DisconnectedDisposerLeaks | src/services/WebSocketService.ts:72-79 | the disposer returned while disconnected removes the entry, yet the queued callback still subscribes at the handshake |
| StompSession.SubscribeTwiceWhileConnected | src/services/WebSocketService.ts:67-82 | a second subscribe to a topic while connected routes the registry to the newer handler but leaves both broker subscriptions live |
| StompSession.SentValueReachesSubscribers | src/services/WebSocketService.ts:92-107 | with a lawful codec, a value `send` publishes during a session, relayed on a topic, reaches every live subscription to it parsed back to the value sent |
| StompSession.ThrowingHandlerGetsRawRetry | src/services/WebSocketService.ts:92-97 | a handler that throws on the parsed body is called again with the raw body; one that does not throw is called once |
| StompSession.AbortedSubscribeAndSendDiverge | src/services/WebSocketService.ts:65-116 | after an abnormal close `subscribe` throws without queueing anything, while `send` publishes nothing and activates nothing. After a graceful drop, `subscribe` queues instead |
| StompSession.ResubscribeSubs | src/services/WebSocketService.ts:23-26 | the resubscription pass (`Resubscribe`, one `doSubscribe` each) subscribes the registry entries in order with consecutive ids |
| StompSession.StaleDisposerKeepsSubscription | src/services/WebSocketService.ts:82-87 | a connected-path disposer called after the session ended changes nothing, and the next handshake subscribes its handler again |
| StompSession.HandshakeResubscribesEntry | src/services/WebSocketService.ts:22-26 | with the queue empty, the handshake leaves a live broker subscription for every registry entry |
| StompSession.DeliveriesPerSubscription | src/services/WebSocketService.ts:92-97 | the fan-out (`Deliveries`) gives at least one and at most two calls per live subscription to the topic, exactly one when no handler throws or the body does not parse |
| StompSession.DeliveriesCarryPayload | src/services/WebSocketService.ts:92-97 | every call of the fan-out carries the decoded body or the raw body, and the decoded body when no handler throws |
| StompSession.WebSocketService.constructor | src/services/WebSocketService.ts:10-40 | the new service is in the initial state (auto-connect) |
| StompSession.WebSocketService.ClientActivate | src/services/WebSocketService.ts:57 | the client becomes active and the activation is recorded |
| StompSession.WebSocketService.DoSubscribeNow | src/services/WebSocketService.ts:91-99 | one broker subscription with the next id (`DoSubscribe`), which is returned |
| StompSession.WebSocketService.Run | src/services/WebSocketService.ts:45-73 | running a callback has the effect `RunCallback` describes |
| StompSession.WebSocketService.Connect | src/services/WebSocketService.ts:42-59 | performs `ConnectStep` in place and keeps the invariant |
| StompSession.WebSocketService.Disconnect | src/services/WebSocketService.ts:61-63 | performs `DisconnectStep` in place |
| StompSession.WebSocketService.Subscribe | src/services/WebSocketService.ts:65-89 | performs `SubscribeStep` in place and returns its disposer, or nothing when the call throws |
| StompSession.WebSocketService.Unsubscribe | src/services/WebSocketService.ts:75-88 | performs `UnsubscribeStep` in place, including the throw without a client session |
| StompSession.WebSocketService.Send | src/services/WebSocketService.ts:101-116 | performs `SendStep` in place |
| StompSession.WebSocketService.OnConnect | src/services/WebSocketService.ts:13-27 | performs `HandshakeStep` in place: the flags, then the drain loop, then the resubscribe loop |
| StompSession.WebSocketService.DrainCallbacks | src/services/WebSocketService.ts:19-20 | the loop runs the queue in order, with the effect `RunQueue` describes, then empties it |
| StompSession.WebSocketService.ResubscribeAll | src/services/WebSocketService.ts:23-26 | the loop subscribes each registry entry in registry order, with the effect `Resubscribe` describes |
| StompSession.WebSocketService.OnDisconnect | src/services/WebSocketService.ts:28-31 | performs `DropStep` in place |
| StompSession.WebSocketService.OnAbnormalClose | src/services/WebSocketService.ts:102-103 | performs `AbortStep` in place |
| StompSession.WebSocketService.OnMessage | src/services/WebSocketService.ts:92-97 | performs `MessageStep` in place, including the raw-body retry for a handler that throws |
| VoiceSignalling.MediaTrack.constructor | src/hooks/useVoiceChat.ts:19 | a captured track starts enabled and not stopped |
| VoiceSignalling.PeerConnection.constructor | src/hooks/useVoiceChat.ts:24-26 | a new connection is open, with no descriptions, candidates or tracks |
| VoiceSignalling.PeerConnection.AddTrack | src/hooks/useVoiceChat.ts:39 | the track is added last; nothing else changes |
| VoiceSignalling.PeerConnection.SetLocalDescription | src/hooks/useVoiceChat.ts:98 | sets the local description only |
| VoiceSignalling.PeerConnection.SetRemoteDescription | src/hooks/useVoiceChat.ts:96 | sets the remote description only |
| VoiceSignalling.PeerConnection.AddIceCandidate | src/hooks/useVoiceChat.ts:110 | appends the candidate only |
| VoiceSignalling.PeerConnection.Close | src/hooks/useVoiceChat.ts:168 | marks the connection closed only |
| VoiceSignalling.StopTracks | src/hooks/useVoiceChat.ts:161-163 | every track is stopped and its enabled flag is untouched |
| VoiceSignalling.SetAudioEnabled | src/hooks/useVoiceChat.ts:132-134 | every audio track gets the new enabled flag, other tracks keep theirs, and none is stopped |
| VoiceSignalling.ReadSignal | src/hooks/useVoiceChat.ts:78-111 | an unparsed body reads as no known type, no payload and no sender; an unknown type carries no payload |
| VoiceSignalling.Respond | src/hooks/useVoiceChat.ts:77-115 | a signal with the own id, or any signal without a peer connection, has no effect, and so does a first await that rejects. For a foreign signal with a payload whose first await resolves, the remote description is set exactly for an offer or an answer, and the candidate is added exactly for a candidate message, each from the payload. An answer is sent, and set as the local description, exactly for a foreign offer with a payload whose three awaits resolve, tagged with the own id |
| VoiceSignalling.IceMessage | src/hooks/useVoiceChat.ts:56-65 | a gathered candidate is sent as a candidate message tagged with the own id, which reads back as such; the end-of-gathering `null` sends nothing |
| VoiceSignalling.MessagesReadBack | src/hooks/useVoiceChat.ts:100-104 | offer, answer and candidate messages are read back with their kind, payload and sender |
| VoiceSignalling.OwnBroadcastsIgnored | src/hooks/useVoiceChat.ts:78 | a hook's own offers, answers and candidates, heard back on the topic, have no effect |
| VoiceSignalling.OfferGetsAnswer | src/hooks/useVoiceChat.ts:94-107 | a foreign offer is set as remote description and answered once; the offerer sets that answer as its remote description |
| VoiceSignalling.VoiceChat.constructor | src/hooks/useVoiceChat.ts:4-12 | flags false, no stream, no connection, nothing sent |
| VoiceSignalling.VoiceChat.InitializePeerConnection | src/hooks/useVoiceChat.ts:15-73 | if capture fails nothing changes and no connection is returned; otherwise a fresh open connection with all local tracks becomes current, with the stream |
| VoiceSignalling.VoiceChat.OnSignal | src/hooks/useVoiceChat.ts:77-115 | applies `Respond` to the current connection: descriptions, candidates and the one answer sent; nothing else changes |
| VoiceSignalling.VoiceChat.OnIceCandidate | src/hooks/useVoiceChat.ts:56-65 | sends one candidate message for a gathered candidate, nothing for `null` |
| VoiceSignalling.VoiceChat.OnTrack | src/hooks/useVoiceChat.ts:43-53 | the remote stream is the event's first stream, or a new stream around the lone track |
| VoiceSignalling.VoiceChat.StartCall | src/hooks/useVoiceChat.ts:139-157 | builds a connection only if none exists or it is closed. If that fails, nothing is sent and `isConnected` is unchanged. A kept connection keeps its closed flag, remote description, candidates and senders; a built one is open with none. Exactly one offer is sent and set as the local description when both awaits resolve, and only then is `isConnected` set; otherwise the local description stays as it was |
| VoiceSignalling.VoiceChat.LeaveCall | src/hooks/useVoiceChat.ts:159-176 | every local track stopped, the connection closed and dropped, stream and remote stream cleared, all flags false |
| VoiceSignalling.VoiceChat.ToggleMute | src/hooks/useVoiceChat.ts:125-127 | flips `isMuted` and nothing else |
| VoiceSignalling.VoiceChat.ToggleMic | src/hooks/useVoiceChat.ts:129-137 | without a stream nothing changes. Otherwise `isMicMuted` flips and every audio track is enabled exactly when the mic is now unmuted |
| VoiceSignalling.VoiceChat.Unmount | src/hooks/useVoiceChat.ts:117-122 | on unmount every local track is stopped and the connection closed |
| LegacySocket.Start | src/websocketClient.js:4-5 | the module starts with no client and not connected, satisfying the invariant |
| LegacySocket.ConnectStep | src/websocketClient.js:11-15 | ignored once connected; otherwise a new client is created and becomes current |
| LegacySocket.HandshakeStep | src/websocketClient.js:17-31 | a handshake sets `connected` and subscribes exactly the draw and chat topics, on the current client, forwarding to that call's callback |
| LegacySocket.Route | src/websocketClient.js:45-49 | DRAW goes to `/app/draw`, CHAT to `/app/chat`, and any other type nowhere |
| LegacySocket.SendStep | src/websocketClient.js:39-50 | dropped without a client or a connection. Otherwise a `null` message throws at `data.type` and changes nothing; any other message sends one frame to the routed destination, or none |
| LegacySocket.FrameStep | src/websocketClient.js:21-31 | a parsable body is forwarded to the subscription's callback; an unparsable one forwards nothing |
| LegacySocket.ConnectsBeforeHandshakeEachOpen | src/websocketClient.js:12-19 | every connect before the first handshake opens its own client, and the last one is current |
| LegacySocket.EarlyHandshakeSubscribesOnLaterClient | src/websocketClient.js:15-21 | with two clients opened, the first handshake subscribes on the second client |
| LegacySocket.ConnectWhenConnectedIgnored | src/websocketClient.js:12 | once connected, any number of connect calls change nothing |
| LegacySocket.SentMessageArrives | src/websocketClient.js:22-49 | a routed message sent while connected reaches the subscription's callback unchanged |
| LegacySocket.LegacyClient.constructor | src/websocketClient.js:4-5 | the module variables start empty |
| LegacySocket.LegacyClient.Connect | src/websocketClient.js:11-15 | performs `ConnectStep` in place |
| LegacySocket.LegacyClient.OnHandshake | src/websocketClient.js:17-31 | performs `HandshakeStep` in place |
| LegacySocket.LegacyClient.SendMessage | src/websocketClient.js:39-50 | performs `SendStep` in place and reports the throw for a `null` message |
| LegacySocket.LegacyClient.OnFrame | src/websocketClient.js:21-31 | performs `FrameStep` in place |
| DrawingCanvas.HexValue | src/components/DrawingCanvas.tsx:231-233 | a hexadecimal digit has a value below 16 |
| DrawingCanvas.DigitsOf | src/components/DrawingCanvas.tsx:229 | the captured digits are six hexadecimal digits |
| DrawingCanvas.PairValue | src/components/DrawingCanvas.tsx:231-233 | `parseInt(pair, 16)` is in 0..255 |
| DrawingCanvas.HexToRgb | src/components/DrawingCanvas.tsx:228-235 | every channel is in 0..255, and any string the pattern (`Matches`, over `IsHexDigit`) rejects gives black |
| DrawingCanvas.HexChar | src/components/DrawingCanvas.tsx:231-233 | the digit written for a value parses back to it |
| DrawingCanvas.HexPair | src/components/DrawingCanvas.tsx:231-233 | the two digits written for a byte parse back to it |
| DrawingCanvas.FormatHex | src/components/DrawingCanvas.tsx:229 | `#rrggbb` is accepted by the pattern |
| DrawingCanvas.FormatThenParse | src/components/DrawingCanvas.tsx:228-235 | formatting a colour and parsing it gives the same channels |
| DrawingCanvas.LowerHex | src/components/DrawingCanvas.tsx:229 | the case flag: a digit and its lower-case form have the same value |
| DrawingCanvas.PairRoundTrip | src/components/DrawingCanvas.tsx:231-233 | a parsed pair written back is the same pair in lower case |
| DrawingCanvas.ParseThenFormat | src/components/DrawingCanvas.tsx:228-235 | parsing loses only the case and the optional `#` |
| DrawingCanvas.OtherHexFormsAreBlack | src/components/DrawingCanvas.tsx:229-234 | the three-, four- and eight-digit forms give black; the six-digit form parses with or without `#` |
| DrawingCanvas.GetBrushSettings | src/components/DrawingCanvas.tsx:103-132 | opacity in (0, 1]; square caps exactly for the highlighter |
| DrawingCanvas.EraseTriplesWidth | src/components/DrawingCanvas.tsx:104 | erasing triples the width and keeps opacity and cap |
| DrawingCanvas.WidthScalesWithSize | src/components/DrawingCanvas.tsx:103-132 | width is the brush size times a per-brush factor, ordered pencil < pen < marker < highlighter |
| DrawingCanvas.StrokeFor | src/components/DrawingCanvas.tsx:207-216 | the stroke carries the buffered points, the brush and the brush width; white when erasing, else the channels `hexToRgb` reads from the colour, in range, at the brush opacity |
| DrawingCanvas.StrokeCarriesPickedColour | src/components/DrawingCanvas.tsx:207-216 | a colour written as `#rrggbb` by the picker is exactly the colour a drawn stroke carries |
| DrawingCanvas.Press | src/components/DrawingCanvas.tsx:153-166 | with a context, drawing starts and the buffer restarts at the press point when the canvas has a position |
| DrawingCanvas.Move | src/components/DrawingCanvas.tsx:168-198 | appends exactly one point, only while drawing |
| DrawingCanvas.Release | src/components/DrawingCanvas.tsx:200-220 | with a context, drawing stops and the buffer is emptied; one stroke is published exactly when the buffer was non-empty |
| DrawingCanvas.MovesAppendInOrder | src/components/DrawingCanvas.tsx:168-198 | while drawing, moves append their points in order and publish nothing |
| DrawingCanvas.MovesIgnoredWhenNotDrawing | src/components/DrawingCanvas.tsx:169 | without a press, moves change nothing |
| DrawingCanvas.OneStrokePerGesture | src/components/DrawingCanvas.tsx:153-220 | press, moves, release publish exactly one stroke carrying the press point and the moves in order |
| DrawingCanvas.SecondReleasePublishesNothing | src/components/DrawingCanvas.tsx:206 | a second release publishes nothing |
| DrawingCanvas.StrokeCapture.constructor | src/components/DrawingCanvas.tsx:153-220 | not drawing, empty buffer, nothing sent |
| DrawingCanvas.StrokeCapture.StartDrawing | src/components/DrawingCanvas.tsx:153-166 | performs `Press` in place |
| DrawingCanvas.StrokeCapture.Draw | src/components/DrawingCanvas.tsx:168-198 | performs `Move` in place |
| DrawingCanvas.StrokeCapture.StopDrawing | src/components/DrawingCanvas.tsx:200-220 | performs `Release` in place |
| VerificationCode.EmptyCode | src/components/VerificationCodeScreen.tsx:15 | the code starts as six empty slots |
| VerificationCode.LastChar | src/components/VerificationCodeScreen.tsx:29 | `slice(-1)` is the last character, or empty |
| VerificationCode.HandleChange | src/components/VerificationCodeScreen.tsx:24-36 | a non-empty value with a non-digit changes nothing. Otherwise the slot becomes the value's last character and the others are unchanged. Six digit-or-empty slots stay so. Focus moves to the next slot exactly for digits typed before the last slot |
| VerificationCode.KeyDownFocus | src/components/VerificationCodeScreen.tsx:38-42 | backspace on an empty slot moves focus back, except from the first slot |
| VerificationCode.Prefix | src/components/VerificationCodeScreen.tsx:46 | at most the first six characters |
| VerificationCode.PastedSlots | src/components/VerificationCodeScreen.tsx:56-60 | an accepted paste gives six slots, each one digit or empty |
| VerificationCode.HandlePaste | src/components/VerificationCodeScreen.tsx:44-66 | rejects a prefix that is empty or has a non-digit. Otherwise the digits are padded to six slots by the loop, and focus goes to the first empty slot, or the last |
| VerificationCode.FirstEmpty | src/components/VerificationCodeScreen.tsx:63 | `findIndex(c => !c)`: the first empty slot, or -1 |
| VerificationCode.JoinLength | src/components/VerificationCodeScreen.tsx:69 | the joined code is as long as the number of filled slots |
| VerificationCode.FilledAll | src/components/VerificationCodeScreen.tsx:222 | all slots are filled exactly when the filled count is the slot count |
| VerificationCode.VerifyIffComplete | src/components/VerificationCodeScreen.tsx:69-77 | the length guard passes exactly when the verify button (line 222) is enabled, that is, every slot holds a digit |
| VerificationCode.PasteThenVerify | src/components/VerificationCodeScreen.tsx:56-71 | a pasted code joins back to the pasted digits and verifies exactly when six were pasted |
| VerificationCode.JoinPrefixDigits | src/components/VerificationCodeScreen.tsx:56-69 | the filled slots of a paste join to the pasted digits |
| VerificationCode.JoinTrailingEmpty | src/components/VerificationCodeScreen.tsx:57-69 | the padding slots add nothing to the joined code |
| VerificationCode.VerifyUsername | src/components/VerificationCodeScreen.tsx:82 | the given username when non-empty, else the email up to its first `@` |
| VerificationCode.BeforeAt | src/components/VerificationCodeScreen.tsx:82 | `split('@')[0]` is the longest prefix without `@` |
| AuthService.JsonFormsDecode | src/services/authService.ts:9-20 | the JSON form of a token or user (`TokenJson`, `UserJson`) determines all its fields: reading them back (`TokenOf`, `UserOf`) gives the same token or user |
| AuthService.ReadItem | src/services/authService.ts:33-46 | a value is read exactly from a stored, non-empty item that parses, and not to `null` |
| AuthService.GetToken | src/services/authService.ts:33-46 | the parsed token text exactly when the item is stored, non-empty, parses and is not `null` |
| AuthService.GetUser | src/services/authService.ts:93-103 | the parsed user text exactly when the item is stored, non-empty, parses and is not `null` |
| AuthService.IsAuthenticated | src/services/authService.ts:68-80 | authenticated exactly when a token is read back, is an object, and has an `access_token` that is present and not `null`; never without a stored token |
| AuthService.StoreToken | src/services/authService.ts:25-28 | `setItem` puts the stringified token under the token key and leaves every other key as it was |
| AuthService.StoreUser | src/services/authService.ts:85-88 | `setItem` puts the stringified user under the user key and leaves every other key as it was |
| AuthService.ClearSession | src/services/authService.ts:59-63 | exactly the token and user keys are removed; every other key keeps its value |
| AuthService.GetAccessToken | src/services/authService.ts:51-54 | the token's `access_token` exactly when it is present and truthy |
| AuthService.GetAuthHeaders | src/services/authService.ts:108-121 | always the JSON content type; `Authorization: Bearer <t>` (the token as a template literal prints it, `TemplateText`) exactly when an access token is returned; no other header |
| AuthService.HeaderImpliesAuthenticated | src/services/authService.ts:108-121 | a request carries a bearer header only for an authenticated session |
| AuthService.EmptyAccessTokenGap | src/services/authService.ts:53-80 | an empty access token is authenticated yet gets no bearer header |
| AuthService.SaveThenGetToken | src/services/authService.ts:25-46 | what `saveToken` stores `getToken` reads back with the same fields, and the user is untouched |
| AuthService.SaveThenGetUser | src/services/authService.ts:85-103 | what `saveUser` stores `getUser` reads back with the same fields, and the token is untouched |
| AuthService.RemoveClearsSession | src/services/authService.ts:59-63 | after removal there is no token, no user, no session and no bearer header, and other keys stay |
| AuthService.UnparsableTokenIsNoSession | src/services/authService.ts:38-45 | unreadable token text is no session |
| AuthService.AuthStore.constructor | src/services/authService.ts:6-7 | the store wraps the given storage |
| AuthService.AuthStore.SaveToken | src/services/authService.ts:25-28 | stores the stringified token under the token key |
| AuthService.AuthStore.SaveUser | src/services/authService.ts:85-88 | stores the stringified user under the user key |
| AuthService.AuthStore.RemoveToken | src/services/authService.ts:59-63 | removes both keys |
| AuthService.AuthStore.Logout | src/services/authService.ts:126-130 | removes both keys |
| AppShell.ScreenOf | src/App.tsx:38-51 | Welcome exactly when not logged in, the game exactly when logged in and in a game, else the dashboard |
| AppShell.Login | src/App.tsx:15-18 | the user is remembered and the welcome screen is left; the game fields are untouched |
| AppShell.JoinGame | src/App.tsx:20-23 | the code is remembered, and the game screen shows exactly for a logged-in user |
| AppShell.LeaveGame | src/App.tsx:25-28 | the code is forgotten and the user kept; the dashboard shows exactly for a logged-in user |
| AppShell.Logout | src/App.tsx:30-36 | from any state, every field is back to its initial value and Welcome shows |
| AppShell.LeaveReturnsToDashboard | src/App.tsx:25-28 | leaving a game shows the dashboard of the same user |
| AppShell.LogoutForgetsEverything | src/App.tsx:30-36 | logout resets all four fields and shows Welcome; the next login shows the dashboard |
| AppShell.WelcomeWinsOverGame | src/App.tsx:38-47 | not logged in shows Welcome even with a game set |
| AppShell.LoginJoinLeave | src/App.tsx:15-28 | login then join shows the game, and leaving returns exactly to the logged-in state |
| AppShell.App.constructor | src/App.tsx:10-13 | all four fields start cleared |
| AppShell.App.HandleLogin | src/App.tsx:15-18 | sets the username and logs in |
| AppShell.App.HandleJoinGame | src/App.tsx:20-23 | sets the game code and enters the game |
| AppShell.App.HandleLeaveGame | src/App.tsx:25-28 | clears the game code and leaves the game |
| AppShell.App.HandleLogout | src/App.tsx:30-36 | clears the stored session and resets all four fields |
| GameScreen.Poll | src/components/GameView.tsx:73-85 | a failed or non-ok poll changes nothing. An ok poll replaces the status and the players (default empty), and sets the creator flag exactly when this user leads the list |
| GameScreen.Tick | src/components/GameView.tsx:96-102 | any timer value sets the time left; status becomes FINISHED exactly at zero, else is unchanged |
| GameScreen.Start | src/components/GameView.tsx:111-120 | PLAYING once the request resolves, whatever its status; unchanged when it throws |
| GameScreen.ViewOf | src/components/GameView.tsx:122-148 | LOBBY exactly gives the lobby, FINISHED exactly the end screen, anything else the game |
| GameScreen.PollCanReopenFinishedGame | src/components/GameView.tsx:78-100 | a poll still reporting PLAYING overwrites a FINISHED set by the timer |
| GameScreen.TimerEndsOnlyAtZero | src/components/GameView.tsx:97-101 | a non-zero timer value only moves the clock |
| GameScreen.Masked | src/components/GameView.tsx:188 | the mask is two characters per letter |
| GameScreen.MaskedShape | src/components/GameView.tsx:188 | the mask is `_` and space alternating |
| GameScreen.MaskedDependsOnLengthOnly | src/components/GameView.tsx:188 | words of equal length have equal masks |
| GameScreen.GameView.constructor | src/components/GameView.tsx:62-69 | LOBBY, no players, not creator, 60 seconds |
| GameScreen.GameView.FetchGameState | src/components/GameView.tsx:73-85 | performs `Poll` in place |
| GameScreen.GameView.OnTimer | src/components/GameView.tsx:96-102 | performs `Tick` in place |
| GameScreen.GameView.HandleStartGame | src/components/GameView.tsx:111-120 | performs `Start` in place |
| GameChat.Field | src/components/GameChat.tsx:30-39 | a raw text body has no fields |
| GameChat.OrElse | src/components/GameChat.tsx:32-38 | `v \|\| fallback`: the value when truthy (`Truthy`, JavaScript truthiness), else the fallback |
| GameChat.Normalise | src/components/GameChat.tsx:30-39 | the text is taken as is. Each other field is the sender's value when truthy, else its default (`OrElse`): the current time for the id, `Unknown`, the avatar URL for the resulting username, the clock for the timestamp, and `false` for both flags |
| GameChat.TruthySenderFieldsKept | src/components/GameChat.tsx:32-38 | every field the sender set to a truthy value reaches the list unchanged |
| GameChat.MissingFieldsDefaulted | src/components/GameChat.tsx:33-38 | a missing or empty username becomes `Unknown`, and missing flags become false |
| GameChat.UnparsedBodyIsAllDefaults | src/components/GameChat.tsx:30-39 | an unparsed body, or a `null` one, gives a message with every field defaulted and no text |
| GameChat.EchoedSendIsListedAsSent | src/components/GameChat.tsx:30-64 | a sent message, in its JSON form (`ToJson`), echoed back on the topic is listed exactly as it was sent |
| GameChat.Receive | src/components/GameChat.tsx:40 | the message is appended at the end, earlier ones untouched, nothing else changes |
| GameChat.Send | src/components/GameChat.tsx:50-66 | blank input does nothing. Otherwise one message (`Outbound`) with the untrimmed text and both flags false goes to `/app/chat/<code>` (`ChatDestination`), the input is cleared, and the list is untouched |
| GameChat.SecondSendIsNoOp | src/components/GameChat.tsx:52-65 | sending twice in a row publishes once |
| GameChat.TrimStart | src/components/GameChat.tsx:52 | `trimStart`: a suffix of the text that is empty or starts with a non-space, and everything it drops is white space |
| GameChat.TrimEnd | src/components/GameChat.tsx:52 | `trimEnd`: a prefix of the text that is empty or ends with a non-space, and everything it drops is white space |
| GameChat.TrimStartEmptyIffBlank | src/components/GameChat.tsx:52 | trimming the start leaves nothing exactly when the text is all white space |
| GameChat.TrimEndKeepsNonSpaceHead | src/components/GameChat.tsx:52 | text that starts with a non-space does not trim to nothing at the end |
| GameChat.BlankIffTrimsToNothing | src/components/GameChat.tsx:52 | the guard `!inputValue.trim()`: the text trims to nothing exactly when every character is white space (`IsBlank`) |
| GameChat.SendKeepsSurroundingSpaces | src/components/GameChat.tsx:52-64 | for every input that does not trim to nothing, the published message is the input as typed, even when trimming would change it, and the input is cleared |
| GameChat.Chat.constructor | src/components/GameChat.tsx:25 | no messages, empty input |
| GameChat.Chat.SetInput | src/components/GameChat.tsx:25 | only the input changes |
| GameChat.Chat.OnMessage | src/components/GameChat.tsx:30-41 | performs `Receive` in place |
| GameChat.Chat.HandleSend | src/components/GameChat.tsx:50-66 | performs `Send` in place |
| Countdown.TickValue | src/components/Timer.tsx:19 | `max(0, t - 1)`: never negative |
| Countdown.After | src/components/Timer.tsx:15-23 | after k seconds the time is never above the start; from zero or below it stays put; from a non-negative start it is non-negative and at least t − k |
| Countdown.AfterFromNonNegative | src/components/Timer.tsx:15-23 | from t ≥ 0, after k seconds the time is max(0, t − k) |
| Countdown.NegativeStaysPut | src/components/Timer.tsx:16 | no countdown runs from zero or below |
| Countdown.AfterAdds | src/components/Timer.tsx:15-23 | a seconds then b seconds is a + b seconds |
| Countdown.LowTimeStaysLow | src/components/Timer.tsx:19-26 | once low (`IsLowTime`, ≤ 10 at line 26), the display stays low |
| Countdown.Timer.constructor | src/components/Timer.tsx:9 | the time starts at the prop |
| Countdown.Timer.SetTimeLeft | src/components/Timer.tsx:11-13 | a new prop resets the time to it |
| Countdown.Timer.Tick | src/components/Timer.tsx:15-23 | one interval firing is one second of `After` |
| Countdown.Timer.Elapse | src/components/Timer.tsx:15-23 | k seconds of firings give `After(t, k)` |
| PlayersList.Insert | src/components/PlayersList.tsx:19 | insertion adds exactly the player |
| PlayersList.InsertSorted | src/components/PlayersList.tsx:19 | insertion keeps the order by score |
| PlayersList.Sorted | src/components/PlayersList.tsx:19 | the sorted copy is a permutation of the players in non-increasing score (`SortedByScore`) |
| PlayersList.InsertKeepsTies | src/components/PlayersList.tsx:19 | insertion puts the player ahead of those with its score |
| PlayersList.SortIsStable | src/components/PlayersList.tsx:19 | players with equal scores keep their order |
| PlayersList.TopRowHasBestScore | src/components/PlayersList.tsx:19 | the first row has the best score |
| PlayersList.RankBadge | src/components/PlayersList.tsx:75-87 | `#1`–`#3` exactly on the first three rows |
| PlayersList.CrownOnlyOnTopScorer | src/components/PlayersList.tsx:53 | the crown (`ShowsCrown`) appears only on the first row, on a top scorer, and never when that player is drawing |
| EditProfile.Validate | src/components/EditProfileModal.tsx:43-74 | username shorter than three fails first (`BadUsername`); then an email without `@` fails (`BadEmail`); else saved |
| EditProfile.AfterSave | src/components/EditProfileModal.tsx:52-72 | loading ends on every path; the dialog closes only on success |
| EditProfile.UsernameCheckedFirst | src/components/EditProfileModal.tsx:47-56 | with both fields invalid only the username error is raised |
| EditProfile.EmptyEmailRejected | src/components/EditProfileModal.tsx:56 | an empty email fails |
| EditProfile.BareAtAccepted | src/components/EditProfileModal.tsx:56 | a bare `@` passes the email check |
| Toolbar.Clamp | src/components/GameToolbar.tsx:103-116 | never negative. At most the limit when the toolbar fits. A target within range is kept, and a negative limit gives 0 |
| Toolbar.ClampIdempotent | src/components/GameToolbar.tsx:103-116 | clamping twice is clamping once |
| Toolbar.ClampMonotone | src/components/GameToolbar.tsx:103-116 | a farther target never moves the toolbar back |
| Toolbar.MouseDown | src/components/GameToolbar.tsx:85-93 | a drag starts only on the handle, with offset pointer − position |
| Toolbar.MouseMove | src/components/GameToolbar.tsx:95-119 | ignored unless dragging. Otherwise the position is the pointer minus the grab offset, clamped on each axis to `max(0, min(v, viewport − toolbar))`, so it stays in the viewport wherever the toolbar fits |
| Toolbar.MouseUp | src/components/GameToolbar.tsx:121-123 | ends the drag and keeps the position |
| Toolbar.Placed | src/components/GameToolbar.tsx:66-76 | the default placement is 140 px left of the right edge and 200 px above the middle, unclamped: a narrow or short viewport puts it off screen; the drag fields are untouched |
| Toolbar.DragFollowsPointer | src/components/GameToolbar.tsx:85-119 | within the viewport, the toolbar moves exactly as far as the pointer |
| Toolbar.NoMoveAfterRelease | src/components/GameToolbar.tsx:97-123 | after release, moves do nothing |
| Toolbar.GameToolbar.constructor | src/components/GameToolbar.tsx:59-61 | at the origin, not dragging |
| Toolbar.GameToolbar.PositionToolbar | src/components/GameToolbar.tsx:66-76 | placed 140 px from the right, 200 px above the middle |
| Toolbar.GameToolbar.HandleMouseDown | src/components/GameToolbar.tsx:85-93 | performs `MouseDown` in place |
| Toolbar.GameToolbar.HandleMouseMove | src/components/GameToolbar.tsx:95-119 | performs `MouseMove` in place |
| Toolbar.GameToolbar.HandleMouseUp | src/components/GameToolbar.tsx:121-123 | performs `MouseUp` in place |

## Left out

- StompSession.Callback: a caller's `connect` callback (`Opaque`) is modelled as recording that it ran, with no effect on the service. `HandshakeStep`, `HandshakeSubscriptionsPerTopic` and `RunQueue` therefore describe a drain whose callbacks do not call back into the service. The drawing canvas's callback, which calls `subscribe` (src/components/DrawingCanvas.tsx:73-77), is not a queue entry of the model. Its route, a connected-path `subscribe` during the drain and then the resubscription pass, is stated separately by `ConnectThenSubscribeSubscribesTwice`.
- **The STOMP/SockJS client library.** Framing, heartbeats, the library's own reconnect timer and error frames are left out. The client is abstract: activation, handshake, graceful drop, abnormal close, live subscriptions, the connection check that makes `subscribe` and `unsubscribe` throw without a session, and a log of calls. A handler that also throws on the raw body passes the exception to the library; that is left out.
- **`StompSession` as written, with its callback queue undeclared.** `connectionCallbacks` is never declared, so it is `undefined` at run time. Then every `subscribe` while disconnected throws a TypeError at line 51, after the registry write at line 67. Every `onConnect` throws at line 19, after setting the flags and before the drain and the resubscription pass. In the program as written, a topic subscribed while disconnected is thus broker-subscribed zero times, not twice. The model gives the queue an empty initial value, so `SubscribedWhileDisconnectedDeliversTwice`, `HandshakeSubscriptionsPerTopic`, `HandshakeDrainsQueueOnce` and `HandshakeStep` hold for the queue declared empty.
- **The service's singleton export.** It is left out because the service is one object here.
- **WebRTC and media capture.** They are reduced to the state the hook touches. Descriptions and candidates are opaque JSON values. Capture and offer/answer creation are parameters, and whether each await rejects is an `Outcome` parameter.
- **Interleaving at `await` points.** Each handler is one atomic step.
- **The voice topic subscription and its withdrawal on unmount.** These go through `StompSession.WebSocketService.Subscribe` and `Unsubscribe`. The hook's own model starts after the subscription.
- **`JSON.parse` and `JSON.stringify`.** They are an abstract codec. JSON numbers are integers.
- **The timer topic payload.** It is taken to be an integer.
- **REST requests.** The game poll and the start request are given by their outcome. The verification and profile requests, toasts, console logging and canvas drawing calls are left out.
- **`Date.now`, the clock, `Math.random` and intervals.** They are parameters, or explicit calls (`Tick`, `Elapse`).
- **String length.** It counts characters, not UTF-16 code units.
- **Outgoing messages.** Strokes, chat messages and voice signals are recorded as the calls made to the shared service's `send`. What then reaches the broker is `StompSession.SendStep`.
- **Brush sizes and toolbar positions.** These are exact reals, not floating point.
- **The profile dialog's `isLoading` flag.** Only its final value is modelled, not the flip at the start.
- **`PlayersList.Sorted`.** It is a stable insertion sort on values, not the engine's in-place sort. The source sorts a copy, so leaving the input unchanged holds by construction.
- **`Toolbar.GameToolbar.PositionToolbar` and `HandleMouseMove`.** They assume the toolbar element is mounted; the source skips them while its ref is empty.
- **Other files.** The legacy demo components, presentational components, the rankings page and the remaining modals are not part of this model.
