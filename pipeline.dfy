/** The router (AudioStackLifecyclePipeline.java): a two-level table from user id to
    guild id to stack, filled lazily, and an event loop that turns a voice server
    update into a Connect for that member's stack, forwards send-handler updates and
    closes to it, and broadcasts Shutdown to every stack.

    The routing decision and the table's keys are given as pure functions; the class
    `AudioStackLifecyclePipeline` holds the real table and follows them. */
module Pipeline {
  import opened Common
  import opened Lifecycle
  import Connections
  import AudioStacks

  /** Where `onEvent` sends an event. */
  datatype Routing =
    | ToStack(member: Member, forwarded: LifecycleEvent)
    | Broadcast
    | Ignore

  function Route(event: LifecycleEvent): Routing
  {
    match event
    case VoiceServerUpdateEvent(u) => ToStack(u.member, ConnectWebSocket(SessionInfo(u)))
    case UpdateSendHandler(m, _) => ToStack(m, event)
    case CloseWebSocket(m) => ToStack(m, event)
    case Shutdown => Broadcast
    case _ => Ignore
  }

  /** The two-level table userId -> guildId -> stack. */
  type Table<T> = map<string, map<string, T>>

  predicate Has<T>(t: Table<T>, userId: string, guildId: string)
  {
    userId in t && guildId in t[userId]
  }

  /** `computeIfAbsent` on both levels, with `created` as the new stack: afterwards the
      member's key is present, an existing entry is kept as it was, and nothing else is
      added or removed. */
  function Register<T>(t: Table<T>, m: Member, created: T): (r: Table<T>)
    ensures forall u, g :: Has(r, u, g) <==> Has(t, u, g) || (u == m.userId && g == m.guildId)
    ensures forall u, g :: Has(t, u, g) ==> Has(r, u, g) && r[u][g] == t[u][g]
    ensures !Has(t, m.userId, m.guildId) ==> Has(r, m.userId, m.guildId) && r[m.userId][m.guildId] == created
    ensures t.Keys + {m.userId} == r.Keys
  {
    var guilds := if m.userId in t then t[m.userId] else map[];
    if m.guildId in guilds then t[m.userId := guilds]
    else t[m.userId := guilds[m.guildId := created]]
  }

  /** The router's own state: the table and whether its intake is disposed. */
  datatype PipelineState<T> = PipelineState(table: Table<T>, disposed: bool)

  /** `onEvent` on the router's state; `created` is the stack a lookup would create. */
  function OnEventState<T>(p: PipelineState<T>, event: LifecycleEvent, created: T): PipelineState<T>
  {
    match Route(event)
    case ToStack(m, _) => p.(table := Register(p.table, m, created))
    case Broadcast => p.(disposed := true)
    case Ignore => p
  }

  /** The events `onEvent` hands to the stack under (userId, guildId), given the table
      before the event. */
  function Delivered<T>(t: Table<T>, event: LifecycleEvent, userId: string, guildId: string): seq<LifecycleEvent>
  {
    match Route(event)
    case ToStack(m, forwarded) =>
      if userId == m.userId && guildId == m.guildId then [forwarded] else []
    case Broadcast => if Has(t, userId, guildId) then [Shutdown] else []
    case Ignore => []
  }

  // ---------------------------------------------------------------------------
  // Properties
  // ---------------------------------------------------------------------------

  /** A routed event belongs to the member it is routed to, so the stack's guard,
      which compares the guild id with that of the stack created for the member,
      always lets it through; and the stack has a handler for it. */
  lemma RoutedEventsPassGuard(event: LifecycleEvent)
    requires Route(event).ToStack?
    ensures var r := Route(event);
      && r.forwarded.EventMember() == r.member
      && AudioStacks.Guard(r.member.guildId, r.forwarded) == Pass
      && (r.forwarded.ConnectWebSocket? || r.forwarded.UpdateSendHandler? || r.forwarded.CloseWebSocket?)
  {
  }

  /** A voice server update becomes exactly one Connect, whose session wraps the update,
      for that member's stack, which exists afterwards. */
  lemma VoiceServerUpdateConnects<T>(p: PipelineState<T>, u: VoiceServerUpdate, c: T, userId: string, guildId: string)
    ensures var e := VoiceServerUpdateEvent(u);
      && Delivered(p.table, e, userId, guildId) ==
         (if u.member == Member(userId, guildId) then [ConnectWebSocket(SessionInfo(u))] else [])
      && Has(OnEventState(p, e, c).table, u.member.userId, u.member.guildId)
      && OnEventState(p, e, c).disposed == p.disposed
  {
  }

  /** Send-handler updates and closes reach their member's stack unchanged, and no other. */
  lemma ForwardsUnchanged<T>(p: PipelineState<T>, e: LifecycleEvent, c: T, userId: string, guildId: string)
    requires e.UpdateSendHandler? || e.CloseWebSocket?
    ensures Delivered(p.table, e, userId, guildId) ==
            (if e.EventMember() == Member(userId, guildId) then [e] else [])
    ensures Has(OnEventState(p, e, c).table, e.UserId(), e.GuildId())
  {
  }

  /** Shutdown disposes the intake, reaches exactly the stacks that exist, exactly once,
      and creates none. */
  lemma ShutdownReachesEveryStack<T>(p: PipelineState<T>, c: T, userId: string, guildId: string)
    ensures Delivered(p.table, Shutdown, userId, guildId) == [Shutdown] <==> Has(p.table, userId, guildId)
    ensures Delivered(p.table, Shutdown, userId, guildId) == [] <==> !Has(p.table, userId, guildId)
    ensures OnEventState(p, Shutdown, c) == p.(disposed := true)
  {
  }

  /** The table only grows, and a key that is present keeps its stack: the same key
      always yields the same instance. */
  lemma TableOnlyGrows<T>(p: PipelineState<T>, e: LifecycleEvent, c: T, userId: string, guildId: string)
    requires Has(p.table, userId, guildId)
    ensures Has(OnEventState(p, e, c).table, userId, guildId)
    ensures OnEventState(p, e, c).table[userId][guildId] == p.table[userId][guildId]
  {
  }

  /** A lookup of a key that is present creates nothing; only an absent key is filled. */
  lemma RegisterExisting<T>(t: Table<T>, m: Member, c: T)
    ensures Has(t, m.userId, m.guildId) <==> Register(t, m, c) == t
  {
    if Has(t, m.userId, m.guildId) {
      assert t[m.userId := t[m.userId]] == t;
    } else {
      assert Has(Register(t, m, c), m.userId, m.guildId);
    }
  }

  /** Only a routed event can add a stack; the others change nothing but the disposal flag,
      whatever stack a lookup would have created. */
  lemma OnlyRoutedEventsCreate<T>(p: PipelineState<T>, e: LifecycleEvent, c1: T, c2: T)
    requires !Route(e).ToStack?
    ensures OnEventState(p, e, c1) == OnEventState(p, e, c2) == p.(disposed := p.disposed || e.Shutdown?)
  {
  }

  /** Events of a class the router has no branch for (a Connect, any other class) change
      nothing and reach no stack. */
  lemma UnknownEventsChangeNothing<T>(p: PipelineState<T>, e: LifecycleEvent, c: T, userId: string, guildId: string)
    requires e.ConnectWebSocket? || e.Unhandled?
    ensures OnEventState(p, e, c) == p
    ensures Delivered(p.table, e, userId, guildId) == []
  {
  }

  /** Every event reaches a stack at most once, and only a stack that exists afterwards. */
  lemma DeliveredAtMostOnce<T>(p: PipelineState<T>, e: LifecycleEvent, c: T, userId: string, guildId: string)
    ensures |Delivered(p.table, e, userId, guildId)| <= 1
    ensures Delivered(p.table, e, userId, guildId) != [] ==> Has(OnEventState(p, e, c).table, userId, guildId)
  {
  }

  // ---------------------------------------------------------------------------
  // The router object
  // ---------------------------------------------------------------------------

  class AudioStackLifecyclePipeline {
    /** The router's intake; stacks and sockets are given it to report back. */
    const lifecycleEventSink: LifecycleSink
    const preferredModeOf: seq<Connections.EncryptionMode> -> Option<Connections.EncryptionMode>

    var audioStacks: Table<AudioStacks.AudioStack>
    var lifecycleSubscriptionDisposed: bool
    /** The stacks this router created, each with the key it was created under. */
    ghost var keyOf: map<AudioStacks.AudioStack, Member>
    ghost var Repr: set<AudioStacks.AudioStack>

    ghost function State(): PipelineState<AudioStacks.AudioStack>
      reads this
    {
      PipelineState(audioStacks, lifecycleSubscriptionDisposed)
    }

    /** Each stack in the table was created here under its own key (so no stack sits
        under two keys), each stack created here is in the table under that key, and
        each carries its key's guild id and reports to this router. */
    ghost predicate Valid()
      reads this
    {
      && Repr == keyOf.Keys
      && (forall u, g :: Has(audioStacks, u, g) ==>
            && audioStacks[u][g] in keyOf
            && keyOf[audioStacks[u][g]] == Member(u, g))
      && (forall s :: s in keyOf ==>
            && Has(audioStacks, keyOf[s].userId, keyOf[s].guildId)
            && audioStacks[keyOf[s].userId][keyOf[s].guildId] == s)
      && (forall s :: s in keyOf ==>
            && s.guildId == keyOf[s].guildId
            && s.lifecyclePipeline == lifecycleEventSink
            && s.preferredModeOf == preferredModeOf)
    }

    /** What one `onEvent` did to the stacks' intakes: each received exactly the events
        `Delivered` names, after what it already held; and no stack was broken. */
    twostate predicate DeliveredTo(event: LifecycleEvent)
      requires Valid()
      reads this, Repr
    {
      && old(Repr) <= Repr
      && (forall u, g :: Has(audioStacks, u, g) ==>
            audioStacks[u][g].lifecycleSink ==
              (if Has(old(audioStacks), u, g) then old(audioStacks[u][g].lifecycleSink) else [])
              + Delivered(old(audioStacks), event, u, g))
    }

    constructor (preferredModeOf: seq<Connections.EncryptionMode> -> Option<Connections.EncryptionMode>)
      ensures Valid() && State() == PipelineState(map[], false)
      ensures fresh(lifecycleEventSink) && lifecycleEventSink.events == []
      ensures this.preferredModeOf == preferredModeOf
    {
      this.preferredModeOf := preferredModeOf;
      lifecycleEventSink := new LifecycleSink();
      audioStacks := map[];
      lifecycleSubscriptionDisposed := false;
      keyOf := map[];
      Repr := {};
    }

    /** `next`: drop an event into the router's intake. */
    method Next(event: LifecycleEvent)
      modifies lifecycleEventSink
      ensures lifecycleEventSink.events == old(lifecycleEventSink.events) + [event]
    {
      lifecycleEventSink.Next(event);
    }

    /** `getAudioStack`: the member's stack, created under its key when absent. */
    method GetAudioStack(m: Member) returns (stack: AudioStacks.AudioStack)
      requires Valid()
      modifies this`audioStacks, this`keyOf, this`Repr
      ensures Valid()
      ensures audioStacks == Register(old(audioStacks), m, stack)
      ensures Has(audioStacks, m.userId, m.guildId) && stack == audioStacks[m.userId][m.guildId]
      ensures Has(old(audioStacks), m.userId, m.guildId) ==> Repr == old(Repr)
      ensures !Has(old(audioStacks), m.userId, m.guildId) ==>
                && fresh(stack) && Repr == old(Repr) + {stack}
                && stack.Valid() && stack.webSocket == null && stack.lifecycleSink == []
                && stack.View() == AudioStacks.InitialStack(m.guildId)
    {
      if Has(audioStacks, m.userId, m.guildId) {
        stack := audioStacks[m.userId][m.guildId];
      } else {
        stack := new AudioStacks.AudioStack(m.guildId, preferredModeOf, lifecycleEventSink);
        keyOf := keyOf[stack := m];
        Repr := Repr + {stack};
      }
      audioStacks := Register(audioStacks, m, stack);
    }

    /** `onEvent`: route one event. */
    method OnEvent(event: LifecycleEvent)
      requires Valid()
      modifies this, Repr`lifecycleSink
      ensures Valid()
      ensures Route(event).ToStack? ==>
                && Has(audioStacks, Route(event).member.userId, Route(event).member.guildId)
                && State() == OnEventState(old(State()), event,
                                           audioStacks[Route(event).member.userId][Route(event).member.guildId])
      ensures !Route(event).ToStack? ==>
                && audioStacks == old(audioStacks)
                && lifecycleSubscriptionDisposed == (old(lifecycleSubscriptionDisposed) || event.Shutdown?)
      ensures DeliveredTo(event)
      ensures forall s :: s in Repr && s !in old(Repr) ==> fresh(s) && s.Valid()
    {
      match Route(event) {
        case ToStack(_, _) =>
          RouteToStack(event);
        case Broadcast =>
          lifecycleSubscriptionDisposed := true;
          BroadcastShutdown();
        case Ignore =>
      }
    }

    /** The branches for a voice server update, a send-handler update and a close: the
        member's stack, then its `next`. */
    method RouteToStack(event: LifecycleEvent)
      requires Valid() && Route(event).ToStack?
      modifies this`audioStacks, this`keyOf, this`Repr, Repr`lifecycleSink
      ensures Valid()
      ensures Has(audioStacks, Route(event).member.userId, Route(event).member.guildId)
      ensures audioStacks == Register(old(audioStacks), Route(event).member,
                                      audioStacks[Route(event).member.userId][Route(event).member.guildId])
      ensures DeliveredTo(event)
      ensures forall s :: s in Repr && s !in old(Repr) ==> fresh(s) && s.Valid()
    {
      var m := Route(event).member;
      var stack := GetAudioStack(m);
      RoutedEventsPassGuard(event);
      assert Repr - old(Repr) <= {stack};
      var r := stack.Next(Route(event).forwarded);
      forall u, g | Has(audioStacks, u, g)
        ensures audioStacks[u][g].lifecycleSink ==
                  (if Has(old(audioStacks), u, g) then old(audioStacks[u][g].lifecycleSink) else [])
                  + Delivered(old(audioStacks), event, u, g)
      {
        assert Delivered(old(audioStacks), event, u, g) == if u == m.userId && g == m.guildId then [Route(event).forwarded] else [];
        if u != m.userId || g != m.guildId {
          assert keyOf[audioStacks[u][g]] != m;
          assert audioStacks[u][g] != stack;
          assert Has(old(audioStacks), u, g);
        }
      }
    }

    /** `forEach(audioStack -> audioStack.next(event))` over every stack in the table. */
    method BroadcastShutdown()
      requires Valid()
      modifies Repr`lifecycleSink
      ensures forall u, g :: Has(audioStacks, u, g) ==>
                audioStacks[u][g].lifecycleSink == old(audioStacks[u][g].lifecycleSink) + [Shutdown]
    {
      var todo := set u, g | u in audioStacks && g in audioStacks[u] :: audioStacks[u][g];
      ghost var all := todo;
      forall s | s in todo
        ensures s in Repr
      {
        var u, g :| u in audioStacks && g in audioStacks[u] && s == audioStacks[u][g];
      }
      while todo != {}
        invariant todo <= all <= Repr
        invariant forall s :: s in all ==>
                    s.lifecycleSink == old(s.lifecycleSink) + (if s in todo then [] else [Shutdown])
        decreases |todo|
      {
        var s :| s in todo;
        var r := s.Next(Shutdown);
        todo := todo - {s};
      }
      assert forall u, g :: Has(audioStacks, u, g) ==> audioStacks[u][g] in all;
    }

    /** One turn of the router's event loop: take the oldest event unless disposed. */
    method ProcessNext() returns (processed: Option<LifecycleEvent>)
      requires Valid()
      modifies this, lifecycleEventSink, Repr`lifecycleSink
      ensures Valid()
      ensures processed == if old(lifecycleSubscriptionDisposed) || old(lifecycleEventSink.events) == [] then None
                           else Some(old(lifecycleEventSink.events)[0])
      ensures processed.None? ==> State() == old(State()) && lifecycleEventSink.events == old(lifecycleEventSink.events)
      ensures processed.None? ==>
                && Repr == old(Repr) && keyOf == old(keyOf)
                && forall s :: s in Repr ==> s.lifecycleSink == old(s.lifecycleSink)
      ensures processed.Some? ==> lifecycleEventSink.events == old(lifecycleEventSink.events)[1..]
      ensures processed.Some? && Route(processed.value).ToStack? ==>
                var m := Route(processed.value).member;
                && Has(audioStacks, m.userId, m.guildId)
                && State() == OnEventState(old(State()), processed.value, audioStacks[m.userId][m.guildId])
      ensures processed.Some? && !Route(processed.value).ToStack? ==>
                && audioStacks == old(audioStacks)
                && lifecycleSubscriptionDisposed == (old(lifecycleSubscriptionDisposed) || processed.value.Shutdown?)
      ensures processed.Some? ==> DeliveredTo(processed.value)
    {
      if lifecycleSubscriptionDisposed {
        return None;
      }
      processed := lifecycleEventSink.Take();
      if processed.Some? {
        OnEvent(processed.value);
      }
    }
  }
}
