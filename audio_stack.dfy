/** The per-session actor (AudioStack.java): one per bot account and guild. It
    owns at most one live websocket and the current frame provider, and handles
    Connect, UpdateSendHandler, Close and Shutdown one event at a time from its
    own intake queue.

    As for the websocket, the actor is given as a pure state machine over
    `StackState` (the sockets appear as indices into the list of sockets it
    created) and as the class `AudioStack`, whose `View()` follows that machine. */
module AudioStacks {
  import opened Common
  import opened Lifecycle
  import Connections

  /** What the actor does to its sockets and its intake, in order. */
  datatype StackEffect =
    | SocketCreated(socket: nat)
    | SocketClosed(socket: nat)
    | FrameProviderNotified(socket: nat)
    | IntakeDisposed

  /** `next` rejects an event that belongs to another guild. */
  datatype GuardError = WrongGuild(eventGuildId: string, stackGuildId: string)

  /** The actor's state: its guild, the intake queue and whether its subscription was
      disposed, the index of the live socket, the session of every socket it created
      (oldest first), the frame provider, and the effects so far. */
  datatype StackState = StackState(
    guildId: string,
    intake: seq<LifecycleEvent>,
    intakeDisposed: bool,
    webSocket: Option<nat>,
    sessions: seq<SessionInfo>,
    sendHandler: Option<FrameProvider>,
    log: seq<StackEffect>)

  /** At most one socket is live: every other socket the actor created has been closed
      by it, and after Shutdown nothing is held. */
  ghost predicate StackValid(v: StackState)
  {
    && (v.webSocket.Some? ==> v.webSocket.value == |v.sessions| - 1)
    && (forall i :: 0 <= i < |v.sessions| && v.webSocket != Some(i) ==> SocketClosed(i) in v.log)
    && (v.intakeDisposed ==> v.webSocket.None? && v.sendHandler.None?)
  }

  function InitialStack(guildId: string): (v: StackState)
    ensures StackValid(v)
  {
    StackState(guildId, [], false, None, [], None, [])
  }

  /** The routing guard of `next`, which looks at nothing but the guild id. */
  function Guard(guildId: string, event: LifecycleEvent): Outcome<GuardError>
  {
    if !event.Shutdown? && event.GuildId() != guildId then
      Fail(WrongGuild(event.GuildId(), guildId))
    else Pass
  }

  /** `next`: a guarded event joins the intake; a rejected one changes nothing. */
  function Enqueue(v: StackState, event: LifecycleEvent): StackState
  {
    if Guard(v.guildId, event).Pass? then v.(intake := v.intake + [event]) else v
  }

  /** Closing the live socket, if there is one. */
  function CloseLive(v: StackState): seq<StackEffect>
  {
    if v.webSocket.Some? then [SocketClosed(v.webSocket.value)] else []
  }

  /** `onNext`: the handler for one event. */
  function Handle(v: StackState, event: LifecycleEvent): StackState
  {
    match event
    case ConnectWebSocket(si) =>
      var k := |v.sessions|;
      v.(webSocket := Some(k), sessions := v.sessions + [si], log := v.log + CloseLive(v) + [SocketCreated(k)])
    case UpdateSendHandler(_, handler) =>
      v.(sendHandler := handler,
         log := v.log + (if v.webSocket.Some? then [FrameProviderNotified(v.webSocket.value)] else []))
    case CloseWebSocket(_) =>
      v.(webSocket := None, log := v.log + CloseLive(v))
    case Shutdown =>
      v.(intakeDisposed := true, webSocket := None, sendHandler := None,
         log := v.log + [IntakeDisposed] + CloseLive(v))
    case _ => v
  }

  /** The actor's event loop takes one event, unless its subscription is disposed. */
  function Turn(v: StackState): StackState
  {
    if v.intakeDisposed || v.intake == [] then v
    else Handle(v.(intake := v.intake[1..]), v.intake[0])
  }

  /** The handlers chained in order. This ignores the disposal flag; `TurnsAreProcess`
      says when the event loop does the same. */
  function Process(v: StackState, events: seq<LifecycleEvent>): StackState
    decreases |events|
  {
    if events == [] then v else Process(Handle(v, events[0]), events[1..])
  }

  function Turns(v: StackState, n: nat): StackState
    decreases n
  {
    if n == 0 then v else Turns(Turn(v), n - 1)
  }

  /** Events that may replace or clear the frame provider. */
  predicate TouchesSendHandler(event: LifecycleEvent)
  {
    event.UpdateSendHandler? || event.Shutdown?
  }

  // ---------------------------------------------------------------------------
  // Properties
  // ---------------------------------------------------------------------------

  /** Shutdown always passes the guard, any other event passes exactly when its guild
      matches, and nothing but the guild id (not the user id) is looked at. */
  lemma GuardLooksOnlyAtGuild(guildId: string, e1: LifecycleEvent, e2: LifecycleEvent)
    ensures Guard(guildId, Shutdown) == Pass
    ensures !e1.Shutdown? ==> (Guard(guildId, e1).Pass? <==> e1.GuildId() == guildId)
    ensures !e1.Shutdown? && !e2.Shutdown? && e1.GuildId() == e2.GuildId() ==> Guard(guildId, e1) == Guard(guildId, e2)
  {
  }

  /** A rejected event is not queued. */
  lemma RejectedEventNotQueued(v: StackState, event: LifecycleEvent)
    requires Guard(v.guildId, event).Fail?
    ensures Enqueue(v, event) == v
  {
  }

  /** Every handler keeps at most one socket live. */
  lemma HandleValid(v: StackState, event: LifecycleEvent)
    requires StackValid(v)
    requires !v.intakeDisposed
    ensures StackValid(Handle(v, event))
  {
    var v' := Handle(v, event);
    if event.ConnectWebSocket? {
      forall i | 0 <= i < |v'.sessions| && v'.webSocket != Some(i)
        ensures SocketClosed(i) in v'.log
      {
        if i == |v.sessions| - 1 {
          assert v.webSocket.Some? ==> v.webSocket == Some(i);
          assert v.webSocket.None? ==> SocketClosed(i) in v.log;
        } else {
          assert SocketClosed(i) in v.log;
        }
      }
    } else if event.CloseWebSocket? || event.Shutdown? {
      forall i | 0 <= i < |v'.sessions| && v'.webSocket != Some(i)
        ensures SocketClosed(i) in v'.log
      {
        if v.webSocket != Some(i) {
          assert SocketClosed(i) in v.log;
        } else {
          assert CloseLive(v) == [SocketClosed(i)];
        }
      }
    }
  }

  lemma TurnValid(v: StackState)
    requires StackValid(v)
    ensures StackValid(Turn(v))
  {
    if !v.intakeDisposed && v.intake != [] {
      HandleValid(v.(intake := v.intake[1..]), v.intake[0]);
    }
  }

  /** Connect closes the live socket, if any, before creating the new one; afterwards
      the new socket is live, every earlier socket is closed, and the frame provider is
      the one held before. */
  lemma ConnectClosesBeforeReplacing(v: StackState, si: SessionInfo)
    requires StackValid(v) && !v.intakeDisposed
    ensures var v' := Handle(v, ConnectWebSocket(si));
      var k := |v.sessions|;
      && v'.log == v.log + (if v.webSocket.Some? then [SocketClosed(v.webSocket.value)] else []) + [SocketCreated(k)]
      && v'.webSocket == Some(k) && v'.sessions == v.sessions + [si]
      && (forall i :: 0 <= i < k ==> SocketClosed(i) in v'.log)
      && v'.sendHandler == v.sendHandler
  {
    HandleValid(v, ConnectWebSocket(si));
  }

  /** UpdateSendHandler replaces the frame provider (Optional.orElse(null)), notifies the
      live socket exactly when there is one, and never changes which socket is live. */
  lemma UpdateSendHandlerReplaces(v: StackState, m: Member, handler: Option<FrameProvider>)
    ensures var v' := Handle(v, UpdateSendHandler(m, handler));
      && v'.sendHandler == handler
      && v'.webSocket == v.webSocket && v'.sessions == v.sessions
      && v'.log == v.log + (if v.webSocket.Some? then [FrameProviderNotified(v.webSocket.value)] else [])
  {
  }

  /** Close closes and forgets the live socket; with none it changes nothing; it never
      touches the frame provider. */
  lemma CloseForgetsSocket(v: StackState, m: Member)
    ensures var v' := Handle(v, CloseWebSocket(m));
      && v'.webSocket.None?
      && v'.sendHandler == v.sendHandler
      && (v.webSocket.Some? ==> v'.log == v.log + [SocketClosed(v.webSocket.value)])
      && (v.webSocket.None? ==> v' == v)
  {
  }

  /** Shutdown disposes the intake, closes the live socket and clears both fields; after
      it the event loop processes nothing more, whatever is queued. */
  lemma {:induction false} ShutdownIsFinal(v: StackState, n: nat)
    requires StackValid(v)
    requires v.intake != [] && v.intake[0] == Shutdown && !v.intakeDisposed
    ensures var v' := Turn(v);
      && v'.intakeDisposed && v'.webSocket.None? && v'.sendHandler.None?
      && v'.intake == v.intake[1..]
      && v'.log == v.log + [IntakeDisposed] + CloseLive(v)
      && Turns(v', n) == v'
  {
    var v' := Turn(v);
    DisposedStaysPut(v', n);
  }

  lemma {:induction false} DisposedStaysPut(v: StackState, n: nat)
    requires v.intakeDisposed
    ensures Turns(v, n) == v
    decreases n
  {
    if n > 0 {
      assert Turn(v) == v;
      DisposedStaysPut(v, n - 1);
    }
  }

  /** Events the stack has no handler for (a raw VoiceServerUpdate, any other class) only log. */
  lemma UnhandledEventsChangeNothing(v: StackState, event: LifecycleEvent)
    requires event.VoiceServerUpdateEvent? || event.Unhandled?
    ensures Handle(v, event) == v
  {
  }

  /** Events that neither set the frame provider nor shut down leave it as it was. */
  lemma {:induction false} SendHandlerSurvives(v: StackState, events: seq<LifecycleEvent>)
    requires forall i :: 0 <= i < |events| ==> !TouchesSendHandler(events[i])
    ensures Process(v, events).sendHandler == v.sendHandler
    decreases |events|
  {
    if events != [] {
      assert !TouchesSendHandler(events[0]);
      SendHandlerSurvives(Handle(v, events[0]), events[1..]);
    }
  }

  lemma {:induction false} ProcessAppend(v: StackState, a: seq<LifecycleEvent>, b: seq<LifecycleEvent>)
    ensures Process(v, a + b) == Process(Process(v, a), b)
    decreases |a|
  {
    if a == [] {
      assert a + b == b;
    } else {
      assert (a + b)[0] == a[0];
      assert (a + b)[1..] == a[1..] + b;
      ProcessAppend(Handle(v, a[0]), a[1..], b);
    }
  }

  /** A frame provider set while no socket exists is remembered, and the socket a later
      Connect creates reads exactly that provider from the stack. */
  lemma SendHandlerReachesNextSocket(v: StackState, m: Member, h: FrameProvider,
                                     between: seq<LifecycleEvent>, si: SessionInfo)
    requires !v.intakeDisposed
    requires forall i :: 0 <= i < |between| ==> !TouchesSendHandler(between[i])
    ensures var v' := Process(v, [UpdateSendHandler(m, Some(h))] + between + [ConnectWebSocket(si)]);
      && v'.sendHandler == Some(h)
      && v'.webSocket.Some? && v'.webSocket.value == |v'.sessions| - 1
      && v'.sessions[v'.webSocket.value] == si
  {
    var v1 := Handle(v, UpdateSendHandler(m, Some(h)));
    ProcessAppend(v, [UpdateSendHandler(m, Some(h))], between);
    ProcessAppend(v, [UpdateSendHandler(m, Some(h))] + between, [ConnectWebSocket(si)]);
    assert Process(v, [UpdateSendHandler(m, Some(h))]) == v1;
    SendHandlerSurvives(v1, between);
    var v2 := Process(v1, between);
    assert Process(v2, [ConnectWebSocket(si)]) == Handle(v2, ConnectWebSocket(si));
  }

  /** A frame provider set after Connect is read by the socket just created, which is
      told about it, and the socket stays live. */
  lemma SendHandlerReachesLiveSocket(v: StackState, si: SessionInfo, m: Member, h: FrameProvider)
    requires StackValid(v) && !v.intakeDisposed
    ensures var v' := Process(v, [ConnectWebSocket(si), UpdateSendHandler(m, Some(h))]);
      var k := |v.sessions|;
      && v'.sendHandler == Some(h)
      && v'.webSocket == Some(k) && |v'.sessions| == k + 1 && v'.sessions[k] == si
      && |v'.log| > 0 && v'.log[|v'.log| - 1] == FrameProviderNotified(k)
  {
    var v1 := Handle(v, ConnectWebSocket(si));
    var events := [ConnectWebSocket(si), UpdateSendHandler(m, Some(h))];
    assert events[1..] == [UpdateSendHandler(m, Some(h))];
    assert Process(v, events) == Process(v1, events[1..]);
    assert Process(v1, events[1..]) == Process(Handle(v1, UpdateSendHandler(m, Some(h))), []);
  }

  /** The handlers never touch the intake or the guild id. */
  lemma {:induction false} ProcessKeepsIntake(v: StackState, es: seq<LifecycleEvent>)
    ensures Process(v, es).intake == v.intake && Process(v, es).guildId == v.guildId
    decreases |es|
  {
    if es != [] {
      ProcessKeepsIntake(Handle(v, es[0]), es[1..]);
    }
  }

  /** The event loop runs the handlers in order: draining events none of which but the
      last is a Shutdown takes one turn per event, and ends as chaining their handlers. */
  lemma {:induction false} TurnsAreProcess(w: StackState, es: seq<LifecycleEvent>, rest: seq<LifecycleEvent>)
    requires !w.intakeDisposed && w.intake == es + rest
    requires forall i :: 0 <= i < |es| - 1 ==> !es[i].Shutdown?
    ensures Turns(w, |es|) == Process(w.(intake := rest), es)
    decreases |es|
  {
    if es == [] {
      assert w.intake == rest;
    } else {
      var w1 := Turn(w);
      assert (es + rest)[1..] == es[1..] + rest;
      assert w1 == Handle(w.(intake := es[1..] + rest), es[0]);
      assert w1.(intake := rest) == Handle(w.(intake := rest), es[0]);
      if |es| == 1 {
        assert es[1..] == [];
      } else {
        assert !es[0].Shutdown?;
        TurnsAreProcess(w1, es[1..], rest);
      }
    }
  }

  /** The loop-level form of `SendHandlerReachesNextSocket`: a live stack whose intake
      holds a provider update, events that leave it alone, and a Connect ends those
      turns with that provider and a live socket for the session. */
  lemma LoopSendHandlerReachesNextSocket(w: StackState, m: Member, h: FrameProvider,
                                         between: seq<LifecycleEvent>, si: SessionInfo,
                                         rest: seq<LifecycleEvent>)
    requires !w.intakeDisposed
    requires forall i :: 0 <= i < |between| ==> !TouchesSendHandler(between[i])
    requires w.intake == [UpdateSendHandler(m, Some(h))] + between + [ConnectWebSocket(si)] + rest
    ensures var w' := Turns(w, |between| + 2);
      && w'.intake == rest
      && w'.sendHandler == Some(h)
      && w'.webSocket.Some? && w'.webSocket.value == |w'.sessions| - 1
      && w'.sessions[w'.webSocket.value] == si
  {
    var es := [UpdateSendHandler(m, Some(h))] + between + [ConnectWebSocket(si)];
    assert w.intake == es + rest;
    forall i | 0 <= i < |es| - 1
      ensures !es[i].Shutdown?
    {
      if i > 0 {
        assert es[i] == between[i - 1];
      }
    }
    TurnsAreProcess(w, es, rest);
    ProcessKeepsIntake(w.(intake := rest), es);
    SendHandlerReachesNextSocket(w.(intake := rest), m, h, between, si);
  }

  // ---------------------------------------------------------------------------
  // The actor object
  // ---------------------------------------------------------------------------

  class AudioStack {
    const guildId: string
    const lifecyclePipeline: LifecycleSink
    const preferredModeOf: seq<Connections.EncryptionMode> -> Option<Connections.EncryptionMode>

    /** Events accepted by `next` and not yet taken by the event loop. */
    var lifecycleSink: seq<LifecycleEvent>
    var lifecycleSubscriptionDisposed: bool
    var webSocket: Connections.AudioWebSocket?
    var sendHandler: Option<FrameProvider>

    /** Every socket this stack created, oldest first. */
    ghost var sockets: seq<Connections.AudioWebSocket>
    /** The session each of those sockets was created for. */
    ghost var sessions: seq<SessionInfo>
    ghost var log: seq<StackEffect>

    ghost function View(): StackState
      reads this
    {
      StackState(guildId, lifecycleSink, lifecycleSubscriptionDisposed,
                 if webSocket == null || |sockets| == 0 then None else Some(|sockets| - 1),
                 sessions, sendHandler, log)
    }

    ghost function SocketSet(): set<Connections.AudioWebSocket>
      reads this`sockets
    {
      set i | 0 <= i < |sockets| :: sockets[i]
    }

    /** A socket this stack created: well formed, and wired to the stack's pipeline. */
    ghost predicate SocketOk(ws: Connections.AudioWebSocket)
      reads ws
    {
      && ws.Valid()
      && ws.lifecyclePipeline == lifecyclePipeline
      && ws.preferredModeOf == preferredModeOf
    }

    /** The sockets as the stack holds them: the live one is the newest and well formed,
        every other one has been closed. */
    ghost predicate Wired()
      reads this`webSocket, this`sockets, this`sessions, SocketSet()
    {
      && |sessions| == |sockets|
      && (webSocket != null ==> |sockets| > 0 && webSocket == sockets[|sockets| - 1] && SocketOk(webSocket))
      && (forall i, j :: 0 <= i < j < |sockets| ==> sockets[i] != sockets[j])
      && (forall i :: 0 <= i < |sockets| ==> sockets[i].session == sessions[i])
      && (forall i :: 0 <= i < |sockets| && sockets[i] != webSocket ==> sockets[i].IsClosed())
    }

    ghost predicate Valid()
      reads this, SocketSet()
    {
      StackValid(View()) && Wired()
    }

    constructor (guildId: string,
                 preferredModeOf: seq<Connections.EncryptionMode> -> Option<Connections.EncryptionMode>,
                 lifecyclePipeline: LifecycleSink)
      ensures Valid() && View() == InitialStack(guildId)
      ensures this.guildId == guildId && this.lifecyclePipeline == lifecyclePipeline
      ensures this.preferredModeOf == preferredModeOf
      ensures webSocket == null && sockets == [] && lifecycleSink == []
    {
      this.guildId := guildId;
      this.lifecyclePipeline := lifecyclePipeline;
      this.preferredModeOf := preferredModeOf;
      lifecycleSink := [];
      lifecycleSubscriptionDisposed := false;
      webSocket := null;
      sendHandler := None;
      sockets := [];
      sessions := [];
      log := [];
    }

    /** `next`: the routing guard, then the intake. */
    method Next(event: LifecycleEvent) returns (r: Outcome<GuardError>)
      modifies this`lifecycleSink
      ensures r == Guard(guildId, event)
      ensures View() == Enqueue(old(View()), event)
      ensures lifecycleSink == old(lifecycleSink) + (if r.Pass? then [event] else [])
      ensures Valid() == old(Valid())
    {
      if !event.Shutdown? && event.GuildId() != guildId {
        return Fail(WrongGuild(event.GuildId(), guildId));
      }
      lifecycleSink := lifecycleSink + [event];
      r := Pass;
    }

    /** One turn of the event loop. */
    method Step() returns (processed: Option<LifecycleEvent>)
      requires Valid()
      modifies this, webSocket
      ensures Valid()
      ensures View() == Turn(old(View()))
      ensures processed == if old(lifecycleSubscriptionDisposed) || old(lifecycleSink) == [] then None
                           else Some(old(lifecycleSink)[0])
      ensures processed.None? ==> sockets == old(sockets) && webSocket == old(webSocket)
      ensures processed.None? ==> webSocket == null || webSocket.State() == old(webSocket.State())
      ensures processed.Some? ==> SocketsFollow(processed.value, old(webSocket))
    {
      if lifecycleSubscriptionDisposed || lifecycleSink == [] {
        return None;
      }
      var event := lifecycleSink[0];
      lifecycleSink := lifecycleSink[1..];
      processed := Some(event);
      OnNext(event);
    }

    /** What a handler did to the socket objects. */
    twostate predicate SocketsFollow(event: LifecycleEvent, previous: Connections.AudioWebSocket?)
      reads this, previous, webSocket
    {
      && old(sockets) <= sockets
      && (if event.ConnectWebSocket? then
            && webSocket != null && fresh(webSocket)
            && webSocket.State() == Connections.Initial(event.sessionInfo)
            && sockets == old(sockets) + [webSocket]
          else sockets == old(sockets))
      && (previous != null && (event.ConnectWebSocket? || event.CloseWebSocket? || event.Shutdown?) ==>
            previous.State() == Connections.CloseEverything(old(previous.State())))
      && (previous != null && event.UpdateSendHandler? ==>
            previous.State() == Connections.FrameProviderUpdated(old(previous.State())))
      && (previous != null && !(event.ConnectWebSocket? || event.CloseWebSocket? || event.Shutdown?
                                || event.UpdateSendHandler?) ==>
            previous.State() == old(previous.State()))
      && (!event.ConnectWebSocket? ==> (webSocket == null || webSocket == previous))
    }

    /** `if (webSocket != null) { webSocket.close(); webSocket = null; }` */
    method DropLiveSocket()
      requires Wired()
      modifies this`webSocket, this`log, webSocket
      ensures Wired() && webSocket == null
      ensures log == old(log) + (if old(webSocket) != null then [SocketClosed(|sockets| - 1)] else [])
      ensures old(webSocket) != null ==> old(webSocket).State() == Connections.CloseEverything(old(webSocket.State()))
    {
      if webSocket != null {
        assert forall i :: 0 <= i < |sockets| - 1 ==> sockets[i] != webSocket;
        webSocket.Close();
        log := log + [SocketClosed(|sockets| - 1)];
        webSocket := null;
      }
    }

    /** `onNext`: dispatch on the event class. */
    method OnNext(event: LifecycleEvent)
      requires Valid() && !lifecycleSubscriptionDisposed
      modifies this, webSocket
      ensures Valid()
      ensures View() == Handle(old(View()), event)
      ensures SocketsFollow(event, old(webSocket))
    {
      HandleValid(View(), event);
      match event {
        case ConnectWebSocket(si) => HandleConnectWebSocket(si);
        case UpdateSendHandler(_, _) => HandleUpdateSendHandler(event);
        case CloseWebSocket(_) => HandleCloseWebSocket(event);
        case Shutdown => HandleShutdown();
        case _ =>
      }
    }

    method HandleConnectWebSocket(si: SessionInfo)
      requires Valid() && !lifecycleSubscriptionDisposed
      modifies this, webSocket
      ensures Valid()
      ensures View() == Handle(old(View()), ConnectWebSocket(si))
      ensures SocketsFollow(ConnectWebSocket(si), old(webSocket))
    {
      ghost var before := View();
      HandleValid(before, ConnectWebSocket(si));
      DropLiveSocket();
      ghost var k := |sockets|;
      var ws := new Connections.AudioWebSocket(si, preferredModeOf, lifecyclePipeline);
      sockets := sockets + [ws];
      sessions := sessions + [si];
      log := log + [SocketCreated(k)];
      webSocket := ws;
      assert View() == before.(webSocket := Some(k), sessions := before.sessions + [si],
                               log := before.log + CloseLive(before) + [SocketCreated(k)]);
    }

    method HandleUpdateSendHandler(event: LifecycleEvent)
      requires event.UpdateSendHandler?
      requires Valid() && !lifecycleSubscriptionDisposed
      modifies this, webSocket
      ensures Valid()
      ensures View() == Handle(old(View()), event)
      ensures SocketsFollow(event, old(webSocket))
    {
      sendHandler := event.audioSendHandler;
      if webSocket != null {
        assert forall i :: 0 <= i < |sockets| - 1 ==> sockets[i] != webSocket;
        webSocket.OnFrameProviderUpdated();
        log := log + [FrameProviderNotified(|sockets| - 1)];
      }
    }

    method HandleCloseWebSocket(event: LifecycleEvent)
      requires event.CloseWebSocket?
      requires Valid() && !lifecycleSubscriptionDisposed
      modifies this, webSocket
      ensures Valid()
      ensures View() == Handle(old(View()), event)
      ensures SocketsFollow(event, old(webSocket))
    {
      HandleValid(View(), event);
      DropLiveSocket();
    }

    method HandleShutdown()
      requires Valid() && !lifecycleSubscriptionDisposed
      modifies this, webSocket
      ensures Valid()
      ensures View() == Handle(old(View()), Shutdown)
      ensures SocketsFollow(Shutdown, old(webSocket))
    {
      HandleValid(View(), Shutdown);
      lifecycleSubscriptionDisposed := true;
      log := log + [IntakeDisposed];
      DropLiveSocket();
      sendHandler := None;
    }
  }
}
