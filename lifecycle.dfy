/** The lifecycle events that flow from the public API through the router to
    the per-session stacks, and the queue that stands for the router's intake. */
module Lifecycle {
  import opened Common

  /** A bot account in a guild: the routing key everywhere. */
  datatype Member = Member(userId: string, guildId: string)

  /** An opaque audio frame provider handed in by the embedding application. */
  datatype FrameProvider = FrameProvider(id: nat)

  /** The voice server assignment for a member. */
  datatype VoiceServerUpdate =
    VoiceServerUpdate(member: Member, sessionId: string, endpoint: string, token: string)

  /** The immutable session snapshot a websocket is built from; it wraps the update. */
  datatype SessionInfo = SessionInfo(voiceServerUpdate: VoiceServerUpdate) {
    function UserId(): string { voiceServerUpdate.member.userId }
    function GuildId(): string { voiceServerUpdate.member.guildId }
  }

  /** The lifecycle event class hierarchy, closed. `Unhandled` stands for any
      other implementation of the event interface: it has a member but no handler. */
  datatype LifecycleEvent =
    | VoiceServerUpdateEvent(update: VoiceServerUpdate)
    | ConnectWebSocket(sessionInfo: SessionInfo)
    | UpdateSendHandler(member: Member, audioSendHandler: Option<FrameProvider>)
    | CloseWebSocket(member: Member)
    | Shutdown
    | Unhandled(member: Member)
  {
    /** Every event except Shutdown names a member. */
    function EventMember(): Member
      requires !Shutdown?
    {
      match this
      case VoiceServerUpdateEvent(u) => u.member
      case ConnectWebSocket(si) => si.voiceServerUpdate.member
      case UpdateSendHandler(m, _) => m
      case CloseWebSocket(m) => m
      case Unhandled(m) => m
    }

    function UserId(): string
      requires !Shutdown?
    {
      EventMember().userId
    }

    function GuildId(): string
      requires !Shutdown?
    {
      EventMember().guildId
    }
  }

  /** The router's intake: `next` appends, the router's event loop takes from the front.
      Websockets hold a reference to it to report closed connections. */
  class LifecycleSink {
    var events: seq<LifecycleEvent>

    constructor ()
      ensures events == []
    {
      events := [];
    }

    method Next(event: LifecycleEvent)
      modifies this
      ensures events == old(events) + [event]
    {
      events := events + [event];
    }

    method Take() returns (event: Option<LifecycleEvent>)
      modifies this
      ensures old(events) == [] ==> event == None && events == []
      ensures old(events) != [] ==> event == Some(old(events)[0]) && events == old(events)[1..]
    {
      if events == [] {
        event := None;
      } else {
        event := Some(events[0]);
        events := events[1..];
      }
    }
  }
}
