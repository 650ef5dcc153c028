/** The public API (Magma.java): every call builds one immutable lifecycle event and
    hands it to the router. A provided voice server update has ":80" stripped from its
    endpoint with Java's `String.replace`, which removes every non-overlapping
    occurrence, scanning left to right. */
module Magma {
  import opened Common
  import opened Lifecycle
  import Pipeline

  /** The voice server payload the embedding application receives from Discord. */
  datatype ServerUpdate = ServerUpdate(sessionId: string, endpoint: string, token: string)

  /** The calls of the public API. `SetSendHandler` carries an option because the Java
      argument may be null, which `Optional.ofNullable` turns into an empty payload. */
  datatype ApiCall =
    | ShutdownCall
    | ProvideVoiceServerUpdate(member: Member, serverUpdate: ServerUpdate)
    | SetSendHandler(member: Member, sendHandler: Option<FrameProvider>)
    | RemoveSendHandler(member: Member)
    | CloseConnection(member: Member)

  /** ":80" occurs in `s` at position `i`. */
  predicate Port80At(s: string, i: int)
  {
    0 <= i && i + 3 <= |s| && s[i..i + 3] == ":80"
  }

  predicate ContainsPort80(s: string)
  {
    exists i | 0 <= i <= |s| - 3 :: Port80At(s, i)
  }

  /** `s.replace(":80", "")` */
  function StripPort80(s: string): string
    decreases |s|
  {
    if |s| < 3 then s
    else if s[..3] == ":80" then StripPort80(s[3..])
    else [s[0]] + StripPort80(s[1..])
  }

  /** The event each call submits. */
  function EventOf(call: ApiCall): LifecycleEvent
  {
    match call
    case ShutdownCall => Shutdown
    case ProvideVoiceServerUpdate(m, su) =>
      VoiceServerUpdateEvent(VoiceServerUpdate(m, su.sessionId, StripPort80(su.endpoint), su.token))
    case SetSendHandler(m, h) => UpdateSendHandler(m, h)
    case RemoveSendHandler(m) => UpdateSendHandler(m, None)
    case CloseConnection(m) => CloseWebSocket(m)
  }

  /** What a sequence of calls submits, in order. */
  function EventsOf(calls: seq<ApiCall>): seq<LifecycleEvent>
    decreases |calls|
  {
    if calls == [] then [] else [EventOf(calls[0])] + EventsOf(calls[1..])
  }

  // ---------------------------------------------------------------------------
  // Properties
  // ---------------------------------------------------------------------------

  /** Each call submits exactly one event, in call order. */
  lemma {:induction false} OneEventPerCall(calls: seq<ApiCall>)
    ensures |EventsOf(calls)| == |calls|
    ensures forall i :: 0 <= i < |calls| ==> EventsOf(calls)[i] == EventOf(calls[i])
    decreases |calls|
  {
    if calls != [] {
      OneEventPerCall(calls[1..]);
    }
  }

  lemma {:induction false} EventsOfAppend(a: seq<ApiCall>, b: seq<ApiCall>)
    ensures EventsOf(a + b) == EventsOf(a) + EventsOf(b)
    decreases |a|
  {
    if a == [] {
      assert a + b == b;
    } else {
      assert (a + b)[0] == a[0];
      assert (a + b)[1..] == a[1..] + b;
      EventsOfAppend(a[1..], b);
    }
  }

  /** Which event class each call maps to, and its payload: `shutdown` is the singleton,
      a provided update keeps the member, session id and token, the send-handler calls
      carry the handler or nothing, and a close names the member. */
  lemma CallsMapToTheirEvents(call: ApiCall)
    ensures call.ShutdownCall? <==> EventOf(call).Shutdown?
    ensures call.ProvideVoiceServerUpdate? <==> EventOf(call).VoiceServerUpdateEvent?
    ensures call.CloseConnection? <==> EventOf(call).CloseWebSocket?
    ensures call.SetSendHandler? || call.RemoveSendHandler? <==> EventOf(call).UpdateSendHandler?
    ensures call.ProvideVoiceServerUpdate? ==>
      var u := EventOf(call).update;
      && u.member == call.member
      && u.sessionId == call.serverUpdate.sessionId
      && u.token == call.serverUpdate.token
      && u.endpoint == StripPort80(call.serverUpdate.endpoint)
    ensures !call.ShutdownCall? ==> EventOf(call).EventMember() == call.member
    ensures call.SetSendHandler? ==> EventOf(call).audioSendHandler == call.sendHandler
    ensures call.RemoveSendHandler? ==> EventOf(call).audioSendHandler == None
    ensures !EventOf(call).ConnectWebSocket? && !EventOf(call).Unhandled?
  {
  }

  /** Every call reaches the router as an event it has a branch for: shutdown is
      broadcast, every other call goes to the stack of the member it names. */
  lemma EveryCallIsRouted(call: ApiCall)
    ensures call.ShutdownCall? <==> Pipeline.Route(EventOf(call)).Broadcast?
    ensures !call.ShutdownCall? ==>
      Pipeline.Route(EventOf(call)).ToStack? && Pipeline.Route(EventOf(call)).member == call.member
    ensures !Pipeline.Route(EventOf(call)).Ignore?
  {
  }

  /** Setting a null handler is the same event as removing it. */
  lemma SetNullIsRemove(m: Member)
    ensures EventOf(SetSendHandler(m, None)) == EventOf(RemoveSendHandler(m))
  {
  }

  /** An endpoint without ":80" passes through unchanged, and one with it does not. */
  lemma {:induction false} NoPortPassesThrough(s: string)
    ensures StripPort80(s) == s <==> !ContainsPort80(s)
    decreases |s|
  {
    if ContainsPort80(s) {
      StripShortens(s);
    } else if |s| >= 3 {
      assert !Port80At(s, 0);
      forall i | Port80At(s[1..], i)
        ensures false
      {
        assert s[1..][i..i + 3] == s[i + 1..i + 4];
        assert Port80At(s, i + 1);
      }
      NoPortPassesThrough(s[1..]);
    }
  }

  /** Every removal takes out three characters; only a string with ":80" gets shorter. */
  lemma {:induction false} StripShortens(s: string)
    ensures |StripPort80(s)| <= |s|
    ensures ContainsPort80(s) ==> |StripPort80(s)| <= |s| - 3
    decreases |s|
  {
    if |s| >= 3 {
      if s[..3] == ":80" {
        StripShortens(s[3..]);
      } else {
        StripShortens(s[1..]);
        if ContainsPort80(s) {
          var i :| 0 <= i <= |s| - 3 && Port80At(s, i);
          assert s[0..3] == s[..3];
          assert s[1..][i - 1..i + 2] == s[i..i + 3];
          assert Port80At(s[1..], i - 1);
        }
      }
    }
  }

  /** The port suffix of an endpoint is removed: appending ":80" to a host changes
      nothing in what comes out, since no occurrence can straddle the join. */
  lemma {:induction false} StripsTrailingPort(host: string)
    ensures StripPort80(host + ":80") == StripPort80(host)
    decreases |host|
  {
    var s := host + ":80";
    if |host| == 0 {
      assert s == ":80";
      assert StripPort80(s) == StripPort80(s[3..]);
      assert s[3..] == [];
    } else if |host| < 3 {
      assert s[..3] != ":80" by {
        if |host| == 1 { assert s[1] == ':'; } else { assert s[2] == ':'; }
      }
      assert s[1..] == host[1..] + ":80";
      StripsTrailingPort(host[1..]);
      assert StripPort80(host) == host;
      assert StripPort80(host[1..]) == host[1..];
      assert [host[0]] + host[1..] == host;
    } else {
      assert s[..3] == host[..3];
      if host[..3] == ":80" {
        assert s[3..] == host[3..] + ":80";
        StripsTrailingPort(host[3..]);
      } else {
        assert s[1..] == host[1..] + ":80";
        StripsTrailingPort(host[1..]);
      }
    }
  }

  /** A character that does not start ":80" is copied and the scan moves on by one. */
  lemma StripCopies(c: char, rest: string)
    requires c != ':' || |rest| < 2 || rest[0] != '8' || rest[1] != '0'
    ensures StripPort80([c] + rest) == [c] + StripPort80(rest)
  {
    var s := [c] + rest;
    assert s[1..] == rest;
    if |s| >= 3 {
      if c != ':' {
        assert s[..3][0] == c;
      } else {
        assert s[..3][1] == rest[0] && s[..3][2] == rest[1];
      }
    }
  }

  /** A ":80" at the scan position is dropped and the scan moves on past it. */
  lemma StripDrops(rest: string)
    ensures StripPort80(":80" + rest) == StripPort80(rest)
  {
    var s := ":80" + rest;
    assert s[..3] == ":80";
    assert s[3..] == rest;
  }

  /** What the call does to a typical endpoint: the port 80 suffix goes. */
  lemma StripExample()
    ensures StripPort80("host:80") == "host"
  {
    StripDrops("");
    StripCopies('t', ":80");
    StripCopies('s', "t:80");
    StripCopies('o', "st:80");
    StripCopies('h', "ost:80");
  }

  /** `replace` removes ":80" wherever it occurs, not only as a port: a host with port
      8080 loses the ":80" of its port and keeps the "80". */
  lemma {:induction false} StripMangles8080(host: string)
    requires forall i :: 0 <= i < |host| ==> host[i] != ':'
    ensures StripPort80(host + ":8080") == host + "80"
    decreases |host|
  {
    if host == [] {
      assert host + ":8080" == ":80" + "80";
      StripDrops("80");
    } else {
      assert host + ":8080" == [host[0]] + (host[1..] + ":8080");
      StripCopies(host[0], host[1..] + ":8080");
      StripMangles8080(host[1..]);
      assert [host[0]] + (host[1..] + "80") == host + "80";
    }
  }

  lemma StripMangles8080Example()
    ensures StripPort80("host:8080") == "host80"
  {
    StripMangles8080("host");
  }

  /** A removal can bring a new ":80" together, which a second pass would remove again:
      the replacement is not idempotent. */
  lemma StripIsNotIdempotent()
    ensures StripPort80("::8080") == ":80"
    ensures StripPort80(StripPort80("::8080")) == ""
  {
    assert ":8080" == ":80" + "80";
    StripDrops("80");
    assert "::8080" == [':'] + ":8080";
    StripCopies(':', ":8080");
    assert ":80" + "" == ":80";
    StripDrops("");
  }
}
