/** The voice gateway protocol handler of one connection attempt
    (connections/AudioWebSocket.java).

    The handler is given twice: as a pure state machine over `WsState`, on which
    the properties are proved, and as the class `AudioWebSocket`, whose fields
    are the Java object's and whose methods are proved to move `State()` exactly
    as the pure machine does. Transport, UDP discovery and the packet provider
    holder are foreign: what the handler asks of them is appended to `trace`;
    what they deliver back (heartbeat ticks, the discovery outcome, a transport
    error) comes in as input events. */
module Connections {
  import opened Common
  import opened Lifecycle

  // ---------------------------------------------------------------------------
  // Wire vocabulary
  // ---------------------------------------------------------------------------

  datatype EncryptionMode = XSalsa20Poly1305Lite | XSalsa20Poly1305Suffix | XSalsa20Poly1305

  datatype NonceStrategy = IncrementingInt | RandomSequence | PacketHeader

  /** Voice close code "disconnected" (4014 in the voice gateway's close code table). */
  const DISCONNECTED: int := 4014
  /** Voice close code "voice server crashed" (4015 in the voice gateway's close code table). */
  const VOICE_SERVER_CRASHED: int := 4015

  const TWO_31: int := 0x8000_0000
  const TWO_32: int := 0x1_0000_0000

  /** Inbound gateway events, after decoding. `Unhandled` is any other subclass. */
  datatype InboundEvent =
    | Hello(heartbeatIntervalMillis: int)
    | Ready(ip: string, port: int, ssrc: int, encryptionModes: seq<EncryptionMode>)
    | SessionDescription(secretKey: seq<bv8>, encryptionMode: EncryptionMode)
    | HeartbeatAck
    | WebSocketClosed(code: int, reason: string)
    | ClientDisconnect
    | Speaking
    | Resumed
    | Ignored(opCode: int)
    | UnknownWsEvent(opCode: int)
    | Unhandled

  /** Outbound gateway events, in the order they are dropped into the sink. */
  datatype OutboundEvent =
    | Identify(userId: string, guildId: string, sessionId: string, token: string)
    | Heartbeat(nonce: int)
    | SelectProtocol(protocol: string, host: string, port: int, encryptionMode: EncryptionMode)
    | Resume(guildId: string, sessionId: string, token: string)
    | SpeakingUpdate(speakingMask: int)

  /** What the handler asks of its collaborators. */
  datatype Effect =
    | ConnectionOpened(connection: nat, endpoint: string)
    | ConnectionDisposed(connection: nat)
    | HandlerPrepareConnect
    | HandlerClosed
    | HeartbeatStarted(subscription: nat, intervalMillis: int)
    | HeartbeatDisposed(subscription: nat)
    | AddressAndSsrcChanged(ip: string, port: int, ssrc: int)
    | UdpDiscoveryStarted(discovery: nat, ip: string, port: int, ssrc: int)
    | KeyAndStrategyChanged(secretKey: seq<bv8>, strategy: NonceStrategy)
    | FrameProviderChanged
    | PacketHolderShutdown
    | LifecycleSubmitted(event: LifecycleEvent)

  /** What UDP discovery (bounded by its timeout) delivers: an external address, or an error. */
  datatype DiscoveryOutcome = Discovered(host: string, port: int) | DiscoveryFailed

  /** Why Ready throws: the UDP target's port is out of range (the socket address
      constructor rejects it), or no offered mode is usable. */
  datatype HandlerError = InvalidPort(port: int) | NoEncryptionMode(offered: seq<EncryptionMode>)

  /** The largest port number a socket address accepts. */
  const MAX_PORT: int := 65535

  // ---------------------------------------------------------------------------
  // Pure functions of the handler
  // ---------------------------------------------------------------------------

  /** Inverse of the nonce strategy table. */
  function ModeOfNonceStrategy(strategy: NonceStrategy): EncryptionMode
  {
    match strategy
    case IncrementingInt => XSalsa20Poly1305Lite
    case RandomSequence => XSalsa20Poly1305Suffix
    case PacketHeader => XSalsa20Poly1305
  }

  /** The nonce strategy of a negotiated mode: total, and undone by ModeOfNonceStrategy. */
  function NonceStrategyOf(mode: EncryptionMode): (r: NonceStrategy)
    ensures ModeOfNonceStrategy(r) == mode
  {
    match mode
    case XSalsa20Poly1305Lite => IncrementingInt
    case XSalsa20Poly1305Suffix => RandomSequence
    case XSalsa20Poly1305 => PacketHeader
  }

  /** A port the socket address constructor accepts. */
  predicate ValidPort(port: int)
  {
    0 <= port <= MAX_PORT
  }

  /** Exactly the two close codes after which the session is resumed. */
  predicate IsResumeCode(code: int)
  {
    code == DISCONNECTED || code == VOICE_SERVER_CRASHED
  }

  /** Java's `long.intValue()` on a non-negative tick: the low 32 bits, two's complement. */
  function IntValue(tick: nat): (r: int)
    ensures -TWO_31 <= r < TWO_31
    ensures (tick - r) % TWO_32 == 0
    ensures tick < TWO_31 ==> r == tick
  {
    var low := tick % TWO_32;
    if low < TWO_31 then low else low - TWO_32
  }

  /** The URI the websocket client is pointed at. */
  function WssEndpoint(session: SessionInfo): string
  {
    "wss://" + session.voiceServerUpdate.endpoint + "/?v=4"
  }

  function IdentifyFor(session: SessionInfo): OutboundEvent
  {
    var u := session.voiceServerUpdate;
    Identify(session.UserId(), u.member.guildId, u.sessionId, u.token)
  }

  function ResumeFor(session: SessionInfo): OutboundEvent
  {
    var u := session.voiceServerUpdate;
    Resume(u.member.guildId, u.sessionId, u.token)
  }

  // ---------------------------------------------------------------------------
  // The handler as a pure state machine
  // ---------------------------------------------------------------------------

  /** The handler's state. `heartbeatSubscription` and `webSocketConnection` are the
      Java fields; `outbound` is what went into `audioWebSocketSink`; the remaining
      fields track the asynchronous subscriptions the handler started: the number of
      ticks each heartbeat subscription has emitted, which were disposed, how many
      connections were opened, the mode captured by each UDP discovery and which
      discoveries have delivered their single outcome. */
  datatype WsState = WsState(
    session: SessionInfo,
    wssEndpoint: string,
    outbound: seq<OutboundEvent>,
    trace: seq<Effect>,
    heartbeatSubscription: Option<nat>,
    heartbeatTicks: seq<nat>,
    heartbeatsDisposed: set<nat>,
    webSocketConnection: nat,
    connectionsOpened: nat,
    discoveries: seq<EncryptionMode>,
    discoveriesSettled: set<nat>)

  ghost predicate WsValid(s: WsState)
  {
    && s.wssEndpoint == WssEndpoint(s.session)
    && (s.heartbeatSubscription.Some? ==> s.heartbeatSubscription.value < |s.heartbeatTicks|)
    && (forall h :: h in s.heartbeatsDisposed ==> h < |s.heartbeatTicks|)
    && s.webSocketConnection < s.connectionsOpened
    && (forall d :: d in s.discoveriesSettled ==> d < |s.discoveries|)
  }

  /** A heartbeat subscription that was started and not disposed keeps ticking. */
  predicate HeartbeatLive(s: WsState, h: nat)
  {
    h < |s.heartbeatTicks| && h !in s.heartbeatsDisposed
  }

  predicate DiscoveryPending(s: WsState, d: nat)
  {
    d < |s.discoveries| && d !in s.discoveriesSettled
  }

  /** Construction opens connection 0 to the session's endpoint. */
  function Initial(session: SessionInfo): (s: WsState)
    ensures WsValid(s)
  {
    WsState(session, WssEndpoint(session), [], [ConnectionOpened(0, WssEndpoint(session))],
            None, [], {}, 0, 1, [], {})
  }

  /** Hello: start a new heartbeat subscription (the field is overwritten, an earlier
      subscription is not disposed), then send Identify. */
  function OnHello(s: WsState, intervalMillis: int): WsState
  {
    var h := |s.heartbeatTicks|;
    s.(heartbeatSubscription := Some(h),
       heartbeatTicks := s.heartbeatTicks + [0],
       trace := s.trace + [HeartbeatStarted(h, intervalMillis)],
       outbound := s.outbound + [IdentifyFor(s.session)])
  }

  /** Ready: an out-of-range port and the no-mode case throw before anything happens;
      otherwise the packet holder gets the target first, then a UDP discovery is
      started that remembers the chosen mode. */
  function OnReady(s: WsState, ip: string, port: int, ssrc: int, preferred: Option<EncryptionMode>): WsState
  {
    if !ValidPort(port) || preferred.None? then s
    else
      var d := |s.discoveries|;
      s.(trace := s.trace + [AddressAndSsrcChanged(ip, port, ssrc), UdpDiscoveryStarted(d, ip, port, ssrc)],
         discoveries := s.discoveries + [preferred.value])
  }

  function OnSessionDescription(s: WsState, secretKey: seq<bv8>, mode: EncryptionMode): WsState
  {
    s.(trace := s.trace + [KeyAndStrategyChanged(secretKey, NonceStrategyOf(mode))])
  }

  /** WebSocketClosed: resume on the two resume codes, else report the close upstream. */
  function OnWebSocketClosed(s: WsState, code: int): WsState
  {
    if IsResumeCode(code) then
      var c := s.connectionsOpened;
      s.(trace := s.trace + [ConnectionDisposed(s.webSocketConnection), HandlerPrepareConnect,
                             ConnectionOpened(c, s.wssEndpoint)],
         webSocketConnection := c,
         connectionsOpened := c + 1,
         outbound := s.outbound + [ResumeFor(s.session)])
    else
      s.(trace := s.trace + [LifecycleSubmitted(CloseWebSocket(s.session.voiceServerUpdate.member))])
  }

  /** The lifecycle events a closed notification submits to the router. */
  function ClosedSubmissions(s: WsState, code: int): seq<LifecycleEvent>
  {
    if IsResumeCode(code) then [] else [CloseWebSocket(s.session.voiceServerUpdate.member)]
  }

  /** Ready with an out-of-range port or without a preferred mode throws out of the dispatch. */
  predicate Throws(event: InboundEvent, preferred: Option<EncryptionMode>)
  {
    event.Ready? && (!ValidPort(event.port) || preferred.None?)
  }

  /** The inbound dispatch; `preferred` is the preferred mode of a Ready's offered modes. */
  function Dispatch(s: WsState, event: InboundEvent, preferred: Option<EncryptionMode>): WsState
  {
    match event
    case Hello(interval) => OnHello(s, interval)
    case Ready(ip, port, ssrc, _) => OnReady(s, ip, port, ssrc, preferred)
    case SessionDescription(key, mode) => OnSessionDescription(s, key, mode)
    case WebSocketClosed(code, _) => OnWebSocketClosed(s, code)
    case _ => s
  }

  /** The lifecycle events an inbound event submits to the router. */
  function Submissions(s: WsState, event: InboundEvent): seq<LifecycleEvent>
  {
    if event.WebSocketClosed? then ClosedSubmissions(s, event.code) else []
  }

  /** One tick of heartbeat subscription `h`: its tick count, truncated to int, is the nonce. */
  function OnHeartbeatTick(s: WsState, h: nat): WsState
  {
    if HeartbeatLive(s, h) then
      s.(outbound := s.outbound + [Heartbeat(IntValue(s.heartbeatTicks[h]))],
         heartbeatTicks := s.heartbeatTicks[h := s.heartbeatTicks[h] + 1])
    else s
  }

  /** The single outcome of discovery `d`; only a success sends anything. */
  function OnDiscoveryOutcome(s: WsState, d: nat, outcome: DiscoveryOutcome): WsState
  {
    if DiscoveryPending(s, d) then
      var settled := s.(discoveriesSettled := s.discoveriesSettled + {d});
      match outcome
      case Discovered(host, port) =>
        settled.(outbound := s.outbound + [SelectProtocol("udp", host, port, s.discoveries[d])])
      case DiscoveryFailed => settled
    else s
  }

  /** `closeEverything`, shared by `close()` and the connection's error path. */
  function CloseEverything(s: WsState): WsState
  {
    match s.heartbeatSubscription
    case Some(h) =>
      s.(trace := s.trace + [HandlerClosed, ConnectionDisposed(s.webSocketConnection),
                             HeartbeatDisposed(h), PacketHolderShutdown],
         heartbeatsDisposed := s.heartbeatsDisposed + {h})
    case None =>
      s.(trace := s.trace + [HandlerClosed, ConnectionDisposed(s.webSocketConnection), PacketHolderShutdown])
  }

  function FrameProviderUpdated(s: WsState): WsState
  {
    s.(trace := s.trace + [FrameProviderChanged])
  }

  /** The packet holder's speaking callback. */
  function SpeakingChanged(s: WsState, isSpeaking: bool): WsState
  {
    s.(outbound := s.outbound + [SpeakingUpdate(if isSpeaking then 1 else 0)])
  }

  /** `n` consecutive ticks of subscription `h`. */
  function Ticks(s: WsState, h: nat, n: nat): WsState
    decreases n
  {
    if n == 0 then s else Ticks(OnHeartbeatTick(s, h), h, n - 1)
  }

  /** The heartbeats `n` ticks send, starting from tick count `start`. */
  function HeartbeatRun(start: nat, n: nat): seq<OutboundEvent>
  {
    seq(n, i requires 0 <= i < n => Heartbeat(IntValue(start + i)))
  }

  // ---------------------------------------------------------------------------
  // Properties of the pure machine
  // ---------------------------------------------------------------------------

  /** The nonce strategy table is injective. */
  lemma NonceStrategyInjective(m1: EncryptionMode, m2: EncryptionMode)
    ensures NonceStrategyOf(m1) == NonceStrategyOf(m2) ==> m1 == m2
  {
    if NonceStrategyOf(m1) == NonceStrategyOf(m2) {
      calc {
        m1;
        ModeOfNonceStrategy(NonceStrategyOf(m1));
        ModeOfNonceStrategy(NonceStrategyOf(m2));
        m2;
      }
    }
  }

  /** The table, as the packet builder expects it. */
  lemma NonceStrategyTable()
    ensures NonceStrategyOf(XSalsa20Poly1305Lite) == IncrementingInt
    ensures NonceStrategyOf(XSalsa20Poly1305Suffix) == RandomSequence
    ensures NonceStrategyOf(XSalsa20Poly1305) == PacketHeader
  {
  }

  /** Heartbeat acks, peer notices, Resumed, ignored and unknown opcodes and unhandled
      classes change nothing and send nothing. */
  lemma NoOpEventsChangeNothing(s: WsState, event: InboundEvent, preferred: Option<EncryptionMode>)
    requires event.HeartbeatAck? || event.ClientDisconnect? || event.Speaking? || event.Resumed?
             || event.Ignored? || event.UnknownWsEvent? || event.Unhandled?
    ensures Dispatch(s, event, preferred) == s
    ensures Submissions(s, event) == []
    ensures !Throws(event, preferred)
  {
  }

  /** Every transition keeps the state well formed. */
  lemma DispatchValid(s: WsState, event: InboundEvent, preferred: Option<EncryptionMode>)
    requires WsValid(s)
    ensures WsValid(Dispatch(s, event, preferred))
  {
  }

  lemma AsyncInputsValid(s: WsState, h: nat, d: nat, outcome: DiscoveryOutcome, isSpeaking: bool)
    requires WsValid(s)
    ensures WsValid(OnHeartbeatTick(s, h))
    ensures WsValid(OnDiscoveryOutcome(s, d, outcome))
    ensures WsValid(CloseEverything(s))
    ensures WsValid(FrameProviderUpdated(s))
    ensures WsValid(SpeakingChanged(s, isSpeaking))
  {
  }

  /** The trace only ever grows, so a closed handler stays closed. */
  lemma TraceGrows(s: WsState, event: InboundEvent, preferred: Option<EncryptionMode>, h: nat,
                   d: nat, outcome: DiscoveryOutcome, isSpeaking: bool)
    ensures s.trace <= Dispatch(s, event, preferred).trace
    ensures s.trace <= OnHeartbeatTick(s, h).trace
    ensures s.trace <= OnDiscoveryOutcome(s, d, outcome).trace
    ensures s.trace <= CloseEverything(s).trace
    ensures s.trace <= FrameProviderUpdated(s).trace
    ensures s.trace <= SpeakingChanged(s, isSpeaking).trace
  {
  }

  /** Hello sends exactly one Identify with the session's user, guild, session id and
      token, and starts a fresh subscription at tick 0 that replaces the field. */
  lemma HelloIdentifies(s: WsState, intervalMillis: int)
    requires WsValid(s)
    ensures var s' := OnHello(s, intervalMillis);
      && s'.outbound == s.outbound + [Identify(s.session.voiceServerUpdate.member.userId,
                                               s.session.voiceServerUpdate.member.guildId,
                                               s.session.voiceServerUpdate.sessionId,
                                               s.session.voiceServerUpdate.token)]
      && s'.heartbeatSubscription == Some(|s.heartbeatTicks|)
      && HeartbeatLive(s', |s.heartbeatTicks|) && s'.heartbeatTicks[|s.heartbeatTicks|] == 0
      && s'.heartbeatsDisposed == s.heartbeatsDisposed
  {
  }

  /** `n` ticks of a live subscription send the next `n` nonces, in order. */
  lemma {:induction false} TicksSendNonces(s: WsState, h: nat, n: nat)
    requires HeartbeatLive(s, h)
    ensures HeartbeatLive(Ticks(s, h, n), h)
    ensures Ticks(s, h, n).heartbeatTicks[h] == s.heartbeatTicks[h] + n
    ensures Ticks(s, h, n).outbound == s.outbound + HeartbeatRun(s.heartbeatTicks[h], n)
    ensures Ticks(s, h, n).trace == s.trace
    decreases n
  {
    if n > 0 {
      var s1 := OnHeartbeatTick(s, h);
      TicksSendNonces(s1, h, n - 1);
      var start := s.heartbeatTicks[h];
      assert s1.heartbeatTicks[h] == start + 1;
      assert HeartbeatRun(start, n) == [Heartbeat(IntValue(start))] + HeartbeatRun(start + 1, n - 1);
    }
  }

  /** After Hello, the i-th tick of the new subscription (counted from 0) sends nonce i. */
  lemma HelloThenTicks(s: WsState, intervalMillis: int, n: nat)
    requires WsValid(s)
    requires n <= TWO_31
    ensures var s1 := OnHello(s, intervalMillis);
      var out := Ticks(s1, |s.heartbeatTicks|, n).outbound;
      && out == s.outbound + [IdentifyFor(s.session)] + HeartbeatRun(0, n)
      && forall i :: 0 <= i < n ==> out[|s.outbound| + 1 + i] == Heartbeat(i)
  {
    var s1 := OnHello(s, intervalMillis);
    TicksSendNonces(s1, |s.heartbeatTicks|, n);
    var out := Ticks(s1, |s.heartbeatTicks|, n).outbound;
    forall i | 0 <= i < n
      ensures out[|s.outbound| + 1 + i] == Heartbeat(i)
    {
      assert out[|s.outbound| + 1 + i] == HeartbeatRun(0, n)[i] == Heartbeat(IntValue(i));
    }
  }

  /** A second Hello does not dispose the first subscription: after close it still ticks. */
  lemma SecondHelloLeaksHeartbeat(s: WsState, i1: int, i2: int)
    requires WsValid(s)
    ensures var h1 := |s.heartbeatTicks|;
      var s3 := CloseEverything(OnHello(OnHello(s, i1), i2));
      && HeartbeatLive(s3, h1)
      && OnHeartbeatTick(s3, h1).outbound == s3.outbound + [Heartbeat(0)]
  {
    var h1 := |s.heartbeatTicks|;
    var s2 := OnHello(OnHello(s, i1), i2);
    assert s2.heartbeatSubscription == Some(h1 + 1);
    assert h1 !in s2.heartbeatsDisposed;
  }

  /** Ready without a preferred mode fails before the packet holder or discovery is
      touched, so it can never lead to a SelectProtocol. */
  lemma ReadyWithoutModeSendsNothing(s: WsState, ip: string, port: int, ssrc: int, modes: seq<EncryptionMode>)
    ensures Throws(Ready(ip, port, ssrc, modes), None)
    ensures Dispatch(s, Ready(ip, port, ssrc, modes), None) == s
  {
  }

  /** Ready whose port is out of range throws while building the UDP target, whatever
      the modes offer, and so also touches nothing. */
  lemma ReadyWithInvalidPortSendsNothing(s: WsState, ip: string, port: int, ssrc: int,
                                         modes: seq<EncryptionMode>, preferred: Option<EncryptionMode>)
    requires !ValidPort(port)
    ensures Throws(Ready(ip, port, ssrc, modes), preferred)
    ensures Dispatch(s, Ready(ip, port, ssrc, modes), preferred) == s
  {
  }

  /** Ready with a mode: target first, then discovery; a success sends exactly one
      SelectProtocol("udp", host, port, mode), a failure sends nothing. With a port out
      of range nothing happens at all. */
  lemma ReadyThenDiscovery(s: WsState, ip: string, port: int, ssrc: int, mode: EncryptionMode,
                           outcome: DiscoveryOutcome)
    requires WsValid(s)
    ensures var d := |s.discoveries|;
      var s1 := OnReady(s, ip, port, ssrc, Some(mode));
      var s2 := OnDiscoveryOutcome(s1, d, outcome);
      && (!ValidPort(port) ==> s1 == s && s2 == s)
      && (ValidPort(port) ==>
            && s1.trace == s.trace + [AddressAndSsrcChanged(ip, port, ssrc), UdpDiscoveryStarted(d, ip, port, ssrc)]
            && s1.outbound == s.outbound
            && s2.outbound == (match outcome
                               case Discovered(host, p) => s.outbound + [SelectProtocol("udp", host, p, mode)]
                               case DiscoveryFailed => s.outbound)
            && s2.trace == s1.trace
            && s2.webSocketConnection == s.webSocketConnection
            && s2.heartbeatsDisposed == s.heartbeatsDisposed)
  {
    var d := |s.discoveries|;
    assert d !in s.discoveriesSettled;
  }

  /** A discovery delivers at most once. */
  lemma DiscoverySettlesOnce(s: WsState, d: nat, o1: DiscoveryOutcome, o2: DiscoveryOutcome)
    requires DiscoveryPending(s, d)
    ensures var s1 := OnDiscoveryOutcome(s, d, o1);
      OnDiscoveryOutcome(s1, d, o2) == s1
  {
  }

  /** Closing does not cancel a pending discovery: a late success still sends SelectProtocol. */
  lemma CloseKeepsDiscoveryPending(s: WsState, d: nat, host: string, port: int)
    requires DiscoveryPending(s, d)
    ensures var s1 := CloseEverything(s);
      && DiscoveryPending(s1, d)
      && OnDiscoveryOutcome(s1, d, Discovered(host, port)).outbound
         == s1.outbound + [SelectProtocol("udp", host, port, s.discoveries[d])]
  {
  }

  /** SessionDescription hands the key and the mapped strategy to the packet holder, nothing else. */
  lemma SessionDescriptionConfiguresKey(s: WsState, key: seq<bv8>, mode: EncryptionMode)
    ensures var s' := Dispatch(s, SessionDescription(key, mode), None);
      && s'.trace == s.trace + [KeyAndStrategyChanged(key, NonceStrategyOf(mode))]
      && s'.outbound == s.outbound
      && ModeOfNonceStrategy(s'.trace[|s.trace|].strategy) == mode
  {
  }

  /** On a resume code: dispose the old connection, reopen the same endpoint and send one
      Resume; no Identify and no lifecycle event. The heartbeat is not cancelled. */
  lemma ResumeReconnects(s: WsState, code: int, reason: string)
    requires WsValid(s)
    requires IsResumeCode(code)
    ensures var s' := Dispatch(s, WebSocketClosed(code, reason), None);
      && WsValid(s')
      && s'.outbound == s.outbound + [Resume(s.session.voiceServerUpdate.member.guildId,
                                             s.session.voiceServerUpdate.sessionId,
                                             s.session.voiceServerUpdate.token)]
      && s'.trace == s.trace + [ConnectionDisposed(s.webSocketConnection), HandlerPrepareConnect,
                                ConnectionOpened(s'.webSocketConnection, s.wssEndpoint)]
      && s'.webSocketConnection != s.webSocketConnection
      && s'.wssEndpoint == s.wssEndpoint
      && Submissions(s, WebSocketClosed(code, reason)) == []
      && s'.heartbeatSubscription == s.heartbeatSubscription
      && s'.heartbeatsDisposed == s.heartbeatsDisposed
  {
  }

  /** On any other code: one CloseWebSocket for the session's member, no reconnect, nothing sent. */
  lemma OtherCodeCloses(s: WsState, code: int, reason: string)
    requires !IsResumeCode(code)
    ensures var s' := Dispatch(s, WebSocketClosed(code, reason), None);
      && Submissions(s, WebSocketClosed(code, reason)) == [CloseWebSocket(s.session.voiceServerUpdate.member)]
      && s'.outbound == s.outbound
      && s'.webSocketConnection == s.webSocketConnection
      && s'.connectionsOpened == s.connectionsOpened
      && s'.trace == s.trace + [LifecycleSubmitted(CloseWebSocket(s.session.voiceServerUpdate.member))]
  {
  }

  /** Only the two resume codes resume. */
  lemma ResumeCodesAreExactlyTwo(code: int)
    ensures IsResumeCode(code) <==> code in {4014, 4015}
  {
  }

  /** Close does its four things and nothing else: sends nothing, opens nothing, and
      disposes only the subscription it holds, if any. */
  lemma CloseEverythingEffects(s: WsState)
    ensures var s' := CloseEverything(s);
      && s'.outbound == s.outbound
      && s'.webSocketConnection == s.webSocketConnection
      && s'.connectionsOpened == s.connectionsOpened
      && s'.heartbeatSubscription == s.heartbeatSubscription
      && s'.heartbeatTicks == s.heartbeatTicks
      && s'.discoveries == s.discoveries && s'.discoveriesSettled == s.discoveriesSettled
      && s'.heartbeatsDisposed == s.heartbeatsDisposed
         + (if s.heartbeatSubscription.Some? then {s.heartbeatSubscription.value} else {})
      && s'.trace == s.trace + [HandlerClosed, ConnectionDisposed(s.webSocketConnection)]
         + (if s.heartbeatSubscription.Some? then [HeartbeatDisposed(s.heartbeatSubscription.value)] else [])
         + [PacketHolderShutdown]
  {
  }

  // ---------------------------------------------------------------------------
  // The handler object
  // ---------------------------------------------------------------------------

  class AudioWebSocket {
    const session: SessionInfo
    const wssEndpoint: string
    const lifecyclePipeline: LifecycleSink
    /** EncryptionMode.getPreferredMode, supplied from outside. */
    const preferredModeOf: seq<EncryptionMode> -> Option<EncryptionMode>

    var heartbeatSubscription: Option<nat>
    var webSocketConnection: nat
    var audioWebSocketSink: seq<OutboundEvent>
    var trace: seq<Effect>
    var heartbeatTicks: seq<nat>
    var heartbeatsDisposed: set<nat>
    var connectionsOpened: nat
    var discoveries: seq<EncryptionMode>
    var discoveriesSettled: set<nat>

    ghost function State(): WsState
      reads this
    {
      WsState(session, wssEndpoint, audioWebSocketSink, trace, heartbeatSubscription, heartbeatTicks,
              heartbeatsDisposed, webSocketConnection, connectionsOpened, discoveries, discoveriesSettled)
    }

    ghost predicate Valid()
      reads this
    {
      WsValid(State())
    }

    /** The handler has run `closeEverything` at least once. */
    predicate IsClosed()
      reads this
    {
      HandlerClosed in trace
    }

    constructor (session: SessionInfo, preferredModeOf: seq<EncryptionMode> -> Option<EncryptionMode>,
                 lifecyclePipeline: LifecycleSink)
      ensures Valid() && State() == Initial(session)
      ensures this.session == session && this.lifecyclePipeline == lifecyclePipeline
      ensures this.preferredModeOf == preferredModeOf
      ensures !IsClosed()
    {
      this.session := session;
      this.wssEndpoint := WssEndpoint(session);
      this.lifecyclePipeline := lifecyclePipeline;
      this.preferredModeOf := preferredModeOf;
      heartbeatSubscription := None;
      audioWebSocketSink := [];
      heartbeatTicks := [];
      heartbeatsDisposed := {};
      discoveries := [];
      discoveriesSettled := {};
      webSocketConnection := 0;
      connectionsOpened := 1;
      trace := [ConnectionOpened(0, WssEndpoint(session))];
    }

    /** The preferred mode the handler computes for an inbound event (only Ready uses it). */
    function PreferredFor(event: InboundEvent): Option<EncryptionMode>
    {
      if event.Ready? then preferredModeOf(event.encryptionModes) else None
    }

    /** Dispatch of one inbound event. */
    method HookOnNext(event: InboundEvent) returns (r: Outcome<HandlerError>)
      requires Valid()
      modifies this, lifecyclePipeline
      ensures Valid()
      ensures State() == Dispatch(old(State()), event, PreferredFor(event))
      ensures r.Fail? <==> Throws(event, PreferredFor(event))
      ensures lifecyclePipeline.events == old(lifecyclePipeline.events) + Submissions(old(State()), event)
    {
      r := Pass;
      match event {
        case Hello(interval) => HandleHello(interval);
        case Ready(ip, port, ssrc, modes) => r := HandleReady(ip, port, ssrc, modes);
        case SessionDescription(key, mode) => HandleSessionDescription(key, mode);
        case WebSocketClosed(code, _) => HandleWebSocketClosed(code);
        case _ =>
      }
      DispatchValid(old(State()), event, PreferredFor(event));
    }

    method HandleHello(intervalMillis: int)
      modifies this
      ensures State() == OnHello(old(State()), intervalMillis)
    {
      var h := |heartbeatTicks|;
      heartbeatTicks := heartbeatTicks + [0];
      trace := trace + [HeartbeatStarted(h, intervalMillis)];
      heartbeatSubscription := Some(h);
      audioWebSocketSink := audioWebSocketSink + [IdentifyFor(session)];
    }

    method HandleReady(ip: string, port: int, ssrc: int, modes: seq<EncryptionMode>)
      returns (r: Outcome<HandlerError>)
      modifies this
      ensures State() == OnReady(old(State()), ip, port, ssrc, preferredModeOf(modes))
      ensures r.Fail? <==> !ValidPort(port) || preferredModeOf(modes).None?
    {
      if !(0 <= port <= MAX_PORT) {
        return Fail(InvalidPort(port));
      }
      var preferredModeOpt := preferredModeOf(modes);
      if preferredModeOpt.None? {
        return Fail(NoEncryptionMode(modes));
      }
      trace := trace + [AddressAndSsrcChanged(ip, port, ssrc)];
      var d := |discoveries|;
      discoveries := discoveries + [preferredModeOpt.value];
      trace := trace + [UdpDiscoveryStarted(d, ip, port, ssrc)];
      r := Pass;
    }

    method HandleSessionDescription(secretKey: seq<bv8>, mode: EncryptionMode)
      modifies this
      ensures State() == OnSessionDescription(old(State()), secretKey, mode)
    {
      trace := trace + [KeyAndStrategyChanged(secretKey, NonceStrategyOf(mode))];
    }

    method HandleWebSocketClosed(code: int)
      modifies this, lifecyclePipeline
      ensures State() == OnWebSocketClosed(old(State()), code)
      ensures lifecyclePipeline.events == old(lifecyclePipeline.events) + ClosedSubmissions(old(State()), code)
    {
      var resume := code == DISCONNECTED || code == VOICE_SERVER_CRASHED;
      if resume {
        trace := trace + [ConnectionDisposed(webSocketConnection), HandlerPrepareConnect];
        webSocketConnection := Connect();
        audioWebSocketSink := audioWebSocketSink + [ResumeFor(session)];
      } else {
        var closeEvent := CloseWebSocket(session.voiceServerUpdate.member);
        trace := trace + [LifecycleSubmitted(closeEvent)];
        lifecyclePipeline.Next(closeEvent);
      }
    }

    /** Opens a new connection to the endpoint and returns its handle. */
    method Connect() returns (connection: nat)
      modifies this`trace, this`connectionsOpened
      ensures connection == old(connectionsOpened) && connectionsOpened == connection + 1
      ensures trace == old(trace) + [ConnectionOpened(connection, wssEndpoint)]
    {
      connection := connectionsOpened;
      connectionsOpened := connectionsOpened + 1;
      trace := trace + [ConnectionOpened(connection, wssEndpoint)];
    }

    /** A tick of heartbeat subscription `h`. */
    method HeartbeatTick(h: nat)
      requires Valid()
      modifies this
      ensures Valid() && State() == OnHeartbeatTick(old(State()), h)
    {
      if h < |heartbeatTicks| && h !in heartbeatsDisposed {
        audioWebSocketSink := audioWebSocketSink + [Heartbeat(IntValue(heartbeatTicks[h]))];
        heartbeatTicks := heartbeatTicks[h := heartbeatTicks[h] + 1];
      }
    }

    /** The outcome of UDP discovery `d`. */
    method DiscoveryResult(d: nat, outcome: DiscoveryOutcome)
      requires Valid()
      modifies this
      ensures Valid() && State() == OnDiscoveryOutcome(old(State()), d, outcome)
    {
      if d < |discoveries| && d !in discoveriesSettled {
        discoveriesSettled := discoveriesSettled + {d};
        if outcome.Discovered? {
          audioWebSocketSink := audioWebSocketSink
            + [SelectProtocol("udp", outcome.host, outcome.port, discoveries[d])];
        }
      }
    }

    method OnFrameProviderUpdated()
      requires Valid()
      modifies this
      ensures Valid() && State() == FrameProviderUpdated(old(State()))
      ensures trace == old(trace) + [FrameProviderChanged]
    {
      trace := trace + [FrameProviderChanged];
    }

    method SetSpeaking(isSpeaking: bool)
      requires Valid()
      modifies this
      ensures Valid() && State() == SpeakingChanged(old(State()), isSpeaking)
    {
      var speakingMask := if isSpeaking then 1 else 0;
      audioWebSocketSink := audioWebSocketSink + [SpeakingUpdate(speakingMask)];
    }

    method Close()
      requires Valid()
      modifies this
      ensures Valid() && IsClosed() && State() == CloseEverything(old(State()))
    {
      CloseEverythingNow();
    }

    /** The connection's error path: the same teardown as `close()`. */
    method TransportError()
      requires Valid()
      modifies this
      ensures Valid() && IsClosed() && State() == CloseEverything(old(State()))
    {
      CloseEverythingNow();
    }

    method CloseEverythingNow()
      requires Valid()
      modifies this
      ensures Valid() && IsClosed() && State() == CloseEverything(old(State()))
    {
      trace := trace + [HandlerClosed, ConnectionDisposed(webSocketConnection)];
      if heartbeatSubscription.Some? {
        trace := trace + [HeartbeatDisposed(heartbeatSubscription.value)];
        heartbeatsDisposed := heartbeatsDisposed + {heartbeatSubscription.value};
      }
      trace := trace + [PacketHolderShutdown];
      assert trace[|old(trace)|] == HandlerClosed;
    }
  }
}
