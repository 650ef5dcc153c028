# Magma voice-connection lifecycle, modelled in Dafny

Magma is a Java library that keeps Discord voice connections for a bot.
This project models the lifecycle core of the library. The embedding application makes
API calls, and each call becomes one immutable lifecycle event. A router
(`AudioStackLifecyclePipeline`) turns each event into a delivery to one per-session
actor (`AudioStack`) per (user id, guild id) pair, or to all of them. Each actor owns at
most one live voice-gateway protocol handler (`AudioWebSocket`) at a time. The handler
talks to Discord's voice gateway: it answers Hello with Identify and heartbeats, Ready
with UDP discovery and SelectProtocol, and SessionDescription by configuring the packet
sender. A closed connection is either resumed or reported back to the router.

Layout, one module per source class:

- `common.dfy` (`Common`): `Option` and an `Outcome` for error paths.
- `lifecycle.dfy` (`Lifecycle`): `Member`, `VoiceServerUpdate`, `SessionInfo`, the closed
  `LifecycleEvent` hierarchy, and `LifecycleSink`, the router's intake queue.
- `audio_web_socket.dfy` (`Connections`): the handler twice over. It is a pure state
  machine on `WsState`, which the properties are proved on. It is also the class
  `AudioWebSocket`, whose fields are the Java fields. Each method of the class is proved
  to move `State()` exactly as the pure machine does. Transport, UDP discovery and the
  packet provider holder are foreign, so the calls made to them are appended to a
  `trace` of effects. Outbound gateway messages are a FIFO `seq`. Heartbeat ticks, the
  discovery outcome and a transport error arrive as input methods.
- `audio_stack.dfy` (`AudioStacks`): the actor. The pure part is `StackState` with
  `Guard`, `Handle` and `Turn`. The class `AudioStack` has the nullable `webSocket` field
  as an `AudioWebSocket?` and `sendHandler` as an option. Every socket it creates is a
  real `AudioWebSocket` object, and `Valid()` ties the objects to `View()`.
- `pipeline.dfy` (`Pipeline`): the routing decision `Route` and the two-level table
  `Register` (`computeIfAbsent` on both levels). The class `AudioStackLifecyclePipeline`
  holds a real table of `AudioStack` objects. Its Shutdown broadcast is a loop over
  every stack in the table.
- `magma.dfy` (`Magma`): the public API as a function from a call to the event it
  submits, including the `":80"` replacement on the endpoint.

Each event runs to completion before the next. So each of the Reactor queues
(`UnicastProcessor` plus `subscribeOn(Schedulers.single())`) is modelled as a sequence
that an explicit "one turn of the event loop" method drains.

Several behaviours of the code differ from a tidier protocol description, and the model
follows the code:

- The stack's routing guard compares only the guild id. The user id is never checked
  (`AudioStacks.GuardLooksOnlyAtGuild`).
- A second Hello overwrites the heartbeat subscription without disposing the first, so
  the first keeps ticking after close (`Connections.SecondHelloLeaksHeartbeat`).
- A resume does not cancel the heartbeat (`Connections.ResumeReconnects`).
- A failed UDP discovery is only logged. It does not tear the socket down, and a
  discovery is never cancelled, so a success that arrives after close still drops
  SelectProtocol into the outbound sink (`Connections.CloseKeepsDiscoveryPending`).
- `replace(":80", "")` removes ":80" anywhere in the endpoint, not just a port suffix
  (`Magma.StripMangles8080`, `Magma.StripIsNotIdempotent`).

The close codes that resume are `DISCONNECTED` = 4014 and `VOICE_SERVER_CRASHED` = 4015.
These are the values Discord documents for its voice gateway. The `CloseCode` class is
not part of this model.

## Model

| member | source | states |
|---|---|---|
| Lifecycle.LifecycleSink.Next | src/main/java/space/npstr/magma/AudioStackLifecyclePipeline.java:103-105 | `next` appends the event to the router's intake and changes nothing else |
| Lifecycle.LifecycleSink.Take | src/main/java/space/npstr/magma/AudioStackLifecyclePipeline.java:94-97 | the event loop takes the oldest queued event, or nothing from an empty queue |
| Connections.NonceStrategyOf | src/main/java/space/npstr/magma/connections/AudioWebSocket.java:223-234 | the nonce strategy switch is total over the three modes and undone by its inverse table |
| Connections.NonceStrategyInjective | src/main/java/space/npstr/magma/connections/AudioWebSocket.java:223-234 | distinct modes get distinct nonce strategies |
| Connections.NonceStrategyTable | src/main/java/space/npstr/magma/connections/AudioWebSocket.java:224-230 | LITE maps to INCREMENTING_INT, SUFFIX to RANDOM_SEQUENCE, plain to PACKET_HEADER |
| Connections.IntValue | src/main/java/space/npstr/magma/connections/AudioWebSocket.java:178 | `tick.intValue()` is the 32-bit two's-complement value congruent to the tick, equal to it below 2^31 |
| Connections.IsResumeCode | src/main/java/space/npstr/magma/connections/AudioWebSocket.java:240-241 | the resume test on a close code; `ResumeCodesAreExactlyTwo` proves it holds for 4014 and 4015 and nothing else |
| Connections.OnHello | src/main/java/space/npstr/magma/connections/AudioWebSocket.java:173-189 | Hello on the pure state: a new heartbeat subscription replaces the field without disposing the old one, then Identify is sent; `HelloIdentifies` and `SecondHelloLeaksHeartbeat` state what it promises |
| Connections.OnReady | src/main/java/space/npstr/magma/connections/AudioWebSocket.java:191-216 | Ready on the pure state: an out-of-range port or a missing mode throws with nothing done; otherwise the target goes to the packet holder, then discovery starts with the mode; `ReadyThenDiscovery`, `ReadyWithoutModeSendsNothing` and `ReadyWithInvalidPortSendsNothing` state what it promises |
| Connections.OnSessionDescription | src/main/java/space/npstr/magma/connections/AudioWebSocket.java:218-221 | SessionDescription on the pure state: the key and the mode's nonce strategy go to the packet holder; `SessionDescriptionConfiguresKey` states what it promises |
| Connections.OnWebSocketClosed | src/main/java/space/npstr/magma/connections/AudioWebSocket.java:236-259 | a close notice on the pure state: resume on the two resume codes, else report the close to the router; `ResumeReconnects` and `OtherCodeCloses` state what it promises |
| Connections.Dispatch | src/main/java/space/npstr/magma/connections/AudioWebSocket.java:147-171 | the inbound dispatch: Hello, Ready, SessionDescription and WebSocketClosed go to their handlers and every other class is a no-op; `NoOpEventsChangeNothing`, `DispatchValid` and `TraceGrows` state what it promises |
| Connections.OnHeartbeatTick | src/main/java/space/npstr/magma/connections/AudioWebSocket.java:177-179 | one tick of a subscription that is still live sends its tick count, truncated by `intValue()`, as the nonce; `TicksSendNonces` states what it promises |
| Connections.OnDiscoveryOutcome | src/main/java/space/npstr/magma/connections/AudioWebSocket.java:205-215 | the single outcome of a pending discovery: success sends SelectProtocol with the captured mode, failure is only logged; `ReadyThenDiscovery` and `DiscoverySettlesOnce` state what it promises |
| Connections.CloseEverything | src/main/java/space/npstr/magma/connections/AudioWebSocket.java:280-288 | `closeEverything` on the pure state; `CloseEverythingEffects` states what it promises |
| Connections.Initial | src/main/java/space/npstr/magma/connections/AudioWebSocket.java:99-121 | construction opens connection 0 to "wss://" + endpoint + "/?v=4" with no heartbeat, in a well-formed state |
| Connections.NoOpEventsChangeNothing | src/main/java/space/npstr/magma/connections/AudioWebSocket.java:154-170 | HeartbeatAck, ClientDisconnect, Speaking, Resumed, Ignored, Unknown and unhandled classes change no state, submit nothing and do not throw |
| Connections.DispatchValid | src/main/java/space/npstr/magma/connections/AudioWebSocket.java:147-171 | every inbound event keeps the handler's state well formed |
| Connections.AsyncInputsValid | src/main/java/space/npstr/magma/connections/AudioWebSocket.java:123-132 | ticks, discovery outcomes, close, frame-provider and speaking updates keep the state well formed |
| Connections.TraceGrows | src/main/java/space/npstr/magma/connections/AudioWebSocket.java:147-288 | no transition removes a recorded effect, so a closed handler stays closed |
| Connections.HelloIdentifies | src/main/java/space/npstr/magma/connections/AudioWebSocket.java:173-189 | Hello sends exactly one Identify with the session's user id, guild id, session id and token, and installs a fresh subscription at tick 0 without disposing any |
| Connections.TicksSendNonces | src/main/java/space/npstr/magma/connections/AudioWebSocket.java:174-180 | n ticks of a live subscription send the next n nonces in order and advance its count by n |
| Connections.HelloThenTicks | src/main/java/space/npstr/magma/connections/AudioWebSocket.java:174-188 | after Hello the outbound queue is Identify followed by heartbeats whose i-th nonce is i |
| Connections.SecondHelloLeaksHeartbeat | src/main/java/space/npstr/magma/connections/AudioWebSocket.java:174 | after two Hellos and a close, the first subscription is still live and still sends heartbeats |
| Connections.ReadyWithoutModeSendsNothing | src/main/java/space/npstr/magma/connections/AudioWebSocket.java:193-200 | Ready with no preferred mode throws and leaves the whole state unchanged: no packet-holder call, no discovery |
| Connections.ReadyWithInvalidPortSendsNothing | src/main/java/space/npstr/magma/connections/AudioWebSocket.java:192 | Ready whose port is outside 0..65535 throws while building the UDP target socket address, whatever the modes, and leaves the whole state unchanged |
| Connections.ReadyThenDiscovery | src/main/java/space/npstr/magma/connections/AudioWebSocket.java:192-215 | Ready with a mode and a port in range records the target first, then starts discovery; a success sends exactly one SelectProtocol("udp", host, port, mode), a failure sends nothing and closes nothing; with a port out of range nothing happens |
| Connections.DiscoverySettlesOnce | src/main/java/space/npstr/magma/connections/AudioWebSocket.java:205-215 | a discovery delivers its outcome at most once |
| Connections.CloseKeepsDiscoveryPending | src/main/java/space/npstr/magma/connections/AudioWebSocket.java:205-215 | closing does not cancel a pending discovery; its late success still drops SelectProtocol into the outbound sink |
| Connections.SessionDescriptionConfiguresKey | src/main/java/space/npstr/magma/connections/AudioWebSocket.java:218-221 | SessionDescription hands the key and the strategy of its mode to the packet holder and sends nothing |
| Connections.ResumeReconnects | src/main/java/space/npstr/magma/connections/AudioWebSocket.java:240-252 | a resume code disposes the old connection, opens a new one to the same endpoint and sends one Resume(guild id, session id, token); no Identify, no lifecycle event, heartbeat untouched |
| Connections.OtherCodeCloses | src/main/java/space/npstr/magma/connections/AudioWebSocket.java:253-258 | any other code submits exactly one CloseWebSocket for the session's member, with no reconnect and nothing sent |
| Connections.ResumeCodesAreExactlyTwo | src/main/java/space/npstr/magma/connections/AudioWebSocket.java:240-241 | exactly the codes 4014 and 4015 resume |
| Connections.CloseEverythingEffects | src/main/java/space/npstr/magma/connections/AudioWebSocket.java:280-288 | close records handler close, connection disposal, heartbeat disposal (only if one was started) and packet-holder shutdown, in that order, and nothing else changes |
| Connections.AudioWebSocket.constructor | src/main/java/space/npstr/magma/connections/AudioWebSocket.java:99-121 | the new handler is in the initial state and is not closed |
| Connections.AudioWebSocket.HookOnNext | src/main/java/space/npstr/magma/connections/AudioWebSocket.java:147-171 | dispatch moves the state as the pure machine does, fails exactly when Ready has an out-of-range port or no mode, and submits exactly the machine's lifecycle events to the router |
| Connections.AudioWebSocket.HandleHello | src/main/java/space/npstr/magma/connections/AudioWebSocket.java:173-189 | the fields change as `OnHello` says |
| Connections.AudioWebSocket.HandleReady | src/main/java/space/npstr/magma/connections/AudioWebSocket.java:191-216 | the fields change as `OnReady` says, and it fails exactly when the port is out of range or no preferred mode exists |
| Connections.AudioWebSocket.HandleSessionDescription | src/main/java/space/npstr/magma/connections/AudioWebSocket.java:218-221 | the fields change as `OnSessionDescription` says |
| Connections.AudioWebSocket.HandleWebSocketClosed | src/main/java/space/npstr/magma/connections/AudioWebSocket.java:236-259 | the fields change as `OnWebSocketClosed` says, and the router receives exactly `ClosedSubmissions` |
| Connections.AudioWebSocket.Connect | src/main/java/space/npstr/magma/connections/AudioWebSocket.java:265-274 | a new connection handle to the endpoint is opened and recorded |
| Connections.AudioWebSocket.HeartbeatTick | src/main/java/space/npstr/magma/connections/AudioWebSocket.java:177-179 | a tick of a live subscription sends its nonce; a tick of a disposed one does nothing |
| Connections.AudioWebSocket.DiscoveryResult | src/main/java/space/npstr/magma/connections/AudioWebSocket.java:205-215 | a discovery outcome changes the fields as `OnDiscoveryOutcome` says |
| Connections.AudioWebSocket.OnFrameProviderUpdated | src/main/java/space/npstr/magma/connections/AudioWebSocket.java:123-125 | the packet holder is told the frame provider changed, and nothing else happens |
| Connections.AudioWebSocket.SetSpeaking | src/main/java/space/npstr/magma/connections/AudioWebSocket.java:127-132 | one Speaking message with mask 1 or 0 is sent |
| Connections.AudioWebSocket.Close | src/main/java/space/npstr/magma/connections/AudioWebSocket.java:134-136 | close runs `closeEverything` and leaves the handler closed |
| Connections.AudioWebSocket.TransportError | src/main/java/space/npstr/magma/connections/AudioWebSocket.java:268-271 | the connection's error path runs the same `closeEverything` |
| Connections.AudioWebSocket.CloseEverythingNow | src/main/java/space/npstr/magma/connections/AudioWebSocket.java:280-288 | the fields change as `CloseEverything` says, and the handler is closed |
| AudioStacks.Guard | src/main/java/space/npstr/magma/AudioStack.java:82-86 | the routing guard: Shutdown passes, any other event passes only for the stack's guild id; `GuardLooksOnlyAtGuild` states what it promises |
| AudioStacks.Enqueue | src/main/java/space/npstr/magma/AudioStack.java:81-89 | `next` on the pure state: a guarded event joins the intake; `RejectedEventNotQueued` states the rejected case |
| AudioStacks.Handle | src/main/java/space/npstr/magma/AudioStack.java:93-141 | `onNext` and the four handlers on the pure state; `HandleValid`, `ConnectClosesBeforeReplacing`, `UpdateSendHandlerReplaces`, `CloseForgetsSocket` and `UnhandledEventsChangeNothing` state what it promises |
| AudioStacks.Turn | src/main/java/space/npstr/magma/AudioStack.java:73-77 | one turn of the event loop: the oldest event is handled unless the subscription is disposed; `TurnValid`, `ShutdownIsFinal` and `DisposedStaysPut` state what it promises |
| AudioStacks.Process | src/main/java/space/npstr/magma/AudioStack.java:93-141 | the handlers chained over a sequence of events; `TurnsAreProcess` says when the event loop does the same |
| AudioStacks.InitialStack | src/main/java/space/npstr/magma/AudioStack.java:64-78 | a new stack has an empty intake, no socket and no send handler, and the at-most-one-live-socket invariant holds |
| AudioStacks.GuardLooksOnlyAtGuild | src/main/java/space/npstr/magma/AudioStack.java:81-86 | Shutdown always passes; any other event passes exactly when its guild id matches; two events with the same guild id get the same verdict whatever their user ids |
| AudioStacks.RejectedEventNotQueued | src/main/java/space/npstr/magma/AudioStack.java:81-88 | an event that fails the guard is not queued |
| AudioStacks.HandleValid | src/main/java/space/npstr/magma/AudioStack.java:93-141 | every handler keeps at most one live socket, closes every other one it created, and holds nothing after Shutdown |
| AudioStacks.TurnValid | src/main/java/space/npstr/magma/AudioStack.java:73-77 | a turn of the event loop keeps that invariant |
| AudioStacks.ConnectClosesBeforeReplacing | src/main/java/space/npstr/magma/AudioStack.java:110-117 | Connect closes the live socket if any, then creates a new one for the session; afterwards that one is the only unclosed socket |
| AudioStacks.UpdateSendHandlerReplaces | src/main/java/space/npstr/magma/AudioStack.java:119-125 | UpdateSendHandler sets the handler to the payload or none, notifies the socket only if one exists, and never changes `webSocket` |
| AudioStacks.CloseForgetsSocket | src/main/java/space/npstr/magma/AudioStack.java:127-132 | Close closes and forgets the live socket, is a no-op without one, and leaves the send handler alone |
| AudioStacks.ShutdownIsFinal | src/main/java/space/npstr/magma/AudioStack.java:134-141 | Shutdown disposes the intake, closes any socket, clears both fields, and no later turn changes anything |
| AudioStacks.DisposedStaysPut | src/main/java/space/npstr/magma/AudioStack.java:134-135 | once the intake is disposed, no number of turns changes the state |
| AudioStacks.UnhandledEventsChangeNothing | src/main/java/space/npstr/magma/AudioStack.java:103-105 | an event without a handler only logs |
| AudioStacks.SendHandlerSurvives | src/main/java/space/npstr/magma/AudioStack.java:110-132 | events other than UpdateSendHandler and Shutdown leave the send handler as it was |
| AudioStacks.ProcessAppend | src/main/java/space/npstr/magma/AudioStack.java:93-107 | handling a + b is handling a, then b |
| AudioStacks.SendHandlerReachesNextSocket | src/main/java/space/npstr/magma/AudioStack.java:115-120 | for a stack not shut down, a handler set before Connect is still the stack's handler when the new socket, which reads it lazily, is created |
| AudioStacks.SendHandlerReachesLiveSocket | src/main/java/space/npstr/magma/AudioStack.java:115-124 | a handler set after Connect is the stack's handler, the new socket stays live, and it is notified |
| AudioStacks.ProcessKeepsIntake | src/main/java/space/npstr/magma/AudioStack.java:93-141 | no handler touches the intake or the guild id |
| AudioStacks.TurnsAreProcess | src/main/java/space/npstr/magma/AudioStack.java:73-77 | draining events of which only the last may be a Shutdown takes one loop turn per event and ends as chaining their handlers |
| AudioStacks.LoopSendHandlerReachesNextSocket | src/main/java/space/npstr/magma/AudioStack.java:115-120 | in the event loop, a provider update, events that leave it alone and a Connect end with that provider and a live socket for the session |
| AudioStacks.AudioStack.constructor | src/main/java/space/npstr/magma/AudioStack.java:64-78 | the new object is in the initial state with no socket |
| AudioStacks.AudioStack.Next | src/main/java/space/npstr/magma/AudioStack.java:81-89 | the guard verdict is returned; an accepted event is appended to the intake, a rejected one changes nothing |
| AudioStacks.AudioStack.Step | src/main/java/space/npstr/magma/AudioStack.java:73-77 | one turn takes the oldest event unless the intake is disposed, and the sockets follow the handler; an idle turn leaves the live socket object as it was |
| AudioStacks.AudioStack.DropLiveSocket | src/main/java/space/npstr/magma/AudioStack.java:128-131 | the live socket, if any, is closed and forgotten |
| AudioStacks.AudioStack.OnNext | src/main/java/space/npstr/magma/AudioStack.java:93-107 | dispatch moves `View()` as `Handle` does, and the socket objects follow it; an event without a handler leaves the live socket object as it was |
| AudioStacks.AudioStack.HandleConnectWebSocket | src/main/java/space/npstr/magma/AudioStack.java:110-117 | the old socket object is closed and a fresh one in its initial state is installed |
| AudioStacks.AudioStack.HandleUpdateSendHandler | src/main/java/space/npstr/magma/AudioStack.java:119-125 | the field takes the payload, and the live socket object, if any, is notified |
| AudioStacks.AudioStack.HandleCloseWebSocket | src/main/java/space/npstr/magma/AudioStack.java:127-132 | the live socket object, if any, is closed and the field cleared |
| AudioStacks.AudioStack.HandleShutdown | src/main/java/space/npstr/magma/AudioStack.java:134-141 | the subscription is disposed, the live socket object closed, and both fields cleared |
| Pipeline.Route | src/main/java/space/npstr/magma/AudioStackLifecyclePipeline.java:108-135 | the branches of `onEvent`: a voice server update becomes a Connect for its member, send-handler updates and closes are forwarded, Shutdown is broadcast, anything else ignored; `RoutedEventsPassGuard` and `EveryCallIsRouted` state what it promises |
| Pipeline.OnEventState | src/main/java/space/npstr/magma/AudioStackLifecyclePipeline.java:108-135 | `onEvent` on the router's own state: routed events register their member, Shutdown disposes the intake; `TableOnlyGrows` and `OnlyRoutedEventsCreate` state what it promises |
| Pipeline.Delivered | src/main/java/space/npstr/magma/AudioStackLifecyclePipeline.java:108-135 | the events `onEvent` hands each stack; `VoiceServerUpdateConnects`, `ForwardsUnchanged`, `ShutdownReachesEveryStack` and `DeliveredAtMostOnce` state what it promises |
| Pipeline.Register | src/main/java/space/npstr/magma/AudioStackLifecyclePipeline.java:138-147 | afterwards the member's key is present, every existing entry keeps its stack, an absent key gets the created stack, and no other key appears |
| Pipeline.RoutedEventsPassGuard | src/main/java/space/npstr/magma/AudioStackLifecyclePipeline.java:110-125 | a routed event belongs to its target member, so the stack's guard lets it through, and the stack has a handler for it |
| Pipeline.VoiceServerUpdateConnects | src/main/java/space/npstr/magma/AudioStackLifecyclePipeline.java:110-118 | a voice server update delivers exactly one Connect, wrapping that update, to that member's stack and no other; the stack exists afterwards |
| Pipeline.ForwardsUnchanged | src/main/java/space/npstr/magma/AudioStackLifecyclePipeline.java:119-125 | UpdateSendHandler and CloseWebSocket reach their member's stack unchanged and no other |
| Pipeline.ShutdownReachesEveryStack | src/main/java/space/npstr/magma/AudioStackLifecyclePipeline.java:126-131 | Shutdown reaches exactly the existing stacks, once each, disposes the intake and creates nothing |
| Pipeline.TableOnlyGrows | src/main/java/space/npstr/magma/AudioStackLifecyclePipeline.java:74 | no event removes a key or changes the stack under it |
| Pipeline.RegisterExisting | src/main/java/space/npstr/magma/AudioStackLifecyclePipeline.java:139-141 | the lookup leaves the table as it was exactly when the key is present |
| Pipeline.OnlyRoutedEventsCreate | src/main/java/space/npstr/magma/AudioStackLifecyclePipeline.java:126-134 | Shutdown and unknown classes create no stack, whatever a lookup would have created |
| Pipeline.UnknownEventsChangeNothing | src/main/java/space/npstr/magma/AudioStackLifecyclePipeline.java:132-134 | events of a class without a branch change nothing and reach no stack |
| Pipeline.DeliveredAtMostOnce | src/main/java/space/npstr/magma/AudioStackLifecyclePipeline.java:108-135 | each event reaches each stack at most once, and only a stack that exists afterwards |
| Pipeline.AudioStackLifecyclePipeline.constructor | src/main/java/space/npstr/magma/AudioStackLifecyclePipeline.java:83-98 | a new router has an empty table and a fresh, empty intake |
| Pipeline.AudioStackLifecyclePipeline.Next | src/main/java/space/npstr/magma/AudioStackLifecyclePipeline.java:103-105 | the event is appended to the intake |
| Pipeline.AudioStackLifecyclePipeline.GetAudioStack | src/main/java/space/npstr/magma/AudioStackLifecyclePipeline.java:138-147 | the table becomes `Register` of itself; the returned stack is the one under the key, and a new one is fresh, empty and for the key's guild |
| Pipeline.AudioStackLifecyclePipeline.OnEvent | src/main/java/space/npstr/magma/AudioStackLifecyclePipeline.java:108-135 | the table and flag move as `OnEventState` says, and each stack's intake receives exactly what `Delivered` names |
| Pipeline.AudioStackLifecyclePipeline.RouteToStack | src/main/java/space/npstr/magma/AudioStackLifecyclePipeline.java:110-125 | the member's stack is looked up or created and receives the forwarded event; every other stack's intake is unchanged |
| Pipeline.AudioStackLifecyclePipeline.BroadcastShutdown | src/main/java/space/npstr/magma/AudioStackLifecyclePipeline.java:129-131 | every stack in the table gets exactly one Shutdown appended |
| Pipeline.AudioStackLifecyclePipeline.ProcessNext | src/main/java/space/npstr/magma/AudioStackLifecyclePipeline.java:94-97 | one turn takes the oldest event unless disposed; the table and the disposal flag then move as `OnEventState` says, so after a Shutdown no later turn takes anything, and each stack receives what `Delivered` names; an idle turn changes no stack |
| Magma.StripPort80 | src/main/java/space/npstr/magma/Magma.java:72 | `replace(":80", "")`: every non-overlapping ":80" is removed, scanning left to right; `NoPortPassesThrough`, `StripShortens` and `StripsTrailingPort` state what it promises |
| Magma.EventOf | src/main/java/space/npstr/magma/Magma.java:62-103 | the event each API call submits; `CallsMapToTheirEvents` and `EveryCallIsRouted` state what it promises |
| Magma.EventsOf | src/main/java/space/npstr/magma/Magma.java:62-103 | the events a sequence of calls submits; `OneEventPerCall` and `EventsOfAppend` state what it promises |
| Magma.OneEventPerCall | src/main/java/space/npstr/magma/Magma.java:62-103 | a sequence of calls submits exactly one event per call, in call order |
| Magma.EventsOfAppend | src/main/java/space/npstr/magma/Magma.java:62-103 | the events of two call sequences are the events of each, concatenated |
| Magma.CallsMapToTheirEvents | src/main/java/space/npstr/magma/Magma.java:62-103 | each call maps to its event class and carries its member, session id, token, stripped endpoint and handler; no call submits a Connect |
| Magma.EveryCallIsRouted | src/main/java/space/npstr/magma/Magma.java:62-103 | shutdown is broadcast, and every other call goes to the stack of the member it names |
| Magma.SetNullIsRemove | src/main/java/space/npstr/magma/Magma.java:77-85 | setting a null handler submits the same event as removing it |
| Magma.NoPortPassesThrough | src/main/java/space/npstr/magma/Magma.java:72 | the endpoint is unchanged exactly when it contains no ":80" |
| Magma.StripShortens | src/main/java/space/npstr/magma/Magma.java:72 | stripping never lengthens the endpoint, and an endpoint with ":80" loses at least three characters |
| Magma.StripsTrailingPort | src/main/java/space/npstr/magma/Magma.java:72 | appending ":80" to a host changes nothing in what comes out |
| Magma.StripMangles8080 | src/main/java/space/npstr/magma/Magma.java:72 | a host without ':' followed by ":8080" becomes host + "80"; for example "host:8080" becomes "host80" (`StripMangles8080Example`), and "host:80" becomes "host" (`StripExample`) |
| Magma.StripIsNotIdempotent | src/main/java/space/npstr/magma/Magma.java:72 | one pass over "::8080" leaves ":80", which a second pass would remove |

## Left out

- Reactor threading (`UnicastProcessor`, `subscribeOn(Schedulers.single())`, `Disposable`): concurrency plumbing. Each queue is modelled as a sequence that an explicit turn method drains one event at a time.
- `WebSocketClient.execute`, the socket I/O and `AudioWebSocketSessionHandler`: foreign. They appear only as open, dispose, prepare and close effects in the handler's trace.
- `UdpDiscovery` and its 2-second timeout: the outcome is an input (`Discovered(host, port)` or `DiscoveryFailed`), and time is not modelled.
- `AudioPacketProviderHolder`, `AudioSendSystemFactory` and frame providers: foreign. Their calls are recorded as effects, and a frame provider is an opaque value.
- `EncryptionMode.getPreferredMode`: not part of this model. It is a function-valued parameter handed from router to stack to socket, and only whether its result is present matters.
- URI construction and `URISyntaxException`: the endpoint is the string "wss://" + endpoint + "/?v=4", and a malformed endpoint is not modelled.
- The Magma constructor's Xnio, SSL and Undertow setup and the `MagmaApi` factories: library wiring.
- The Magma object itself: its calls only build an event and hand it to the router, so they are modelled as the function `Magma.EventOf`, with `Lifecycle.LifecycleSink.Next` as the hand-off.
- All logging.
- Connections.AudioWebSocket.HookOnNext: both exceptions Ready can throw are returned as a `Fail` outcome: `InvalidPort` for a port that the socket address constructor rejects, and `NoEncryptionMode` when no offered mode is usable. What Reactor does with a subscriber that throws is not modelled.
- AudioStacks.AudioStack.Step: only called when the stack's own invariant holds. A Java exception thrown inside the event loop is not modelled.
- Pipeline.AudioStackLifecyclePipeline.BroadcastShutdown: the `HashMap` iteration order is not modelled. The loop visits the stacks in an arbitrary order, and its contract says only what each stack receives.
- Pipeline.AudioStackLifecyclePipeline.OnEvent: a stack's guard failure (an `IllegalArgumentException` in `next`) cannot happen for routed events (`Pipeline.RoutedEventsPassGuard`), so its propagation is not modelled.
- The sessions a stack's new sockets are built with are recorded. The frame-provider supplier `() -> sendHandler` is not a separate object: the socket is notified, and the stack's field is what the supplier would return.
