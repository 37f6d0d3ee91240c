/** What the realtime client and its older variant share: the callback slots,
    the trace of what a client does (frames sent, callbacks invoked, handler
    failures reported, transport handles opened and closed), the callback
    isolation rule, the subscribe frame of section 4.1 of the JSON-RPC 2.0
    specification (a notification: `method` and `params`, no `id`) and the
    envelope of an incoming notification. */
module Stream {
  import opened Json

  /** The six optional callbacks given to the constructor. */
  datatype Slot =
    | OnMessage | OnMessageBoard | OnMessageBoardSnapshot
    | OnMessageTicker | OnMessageExecutions | OnClose

  /** One observable step of a client; `C` is the client's callback-argument type. */
  datatype Event<C> =
    | Sent(frame: Json)              // a frame written to the transport
    | Invoked(call: C)               // a registered callback was called
    | Raised(slot: Slot)             // that callback raised; caught and reported
    | TransportOpened(handle: nat)   // a new transport handle was created
    | TransportClosed(handle: nat)   // `close()` was called on a handle

  /** `__callback(callback, *args)`: an absent callback is skipped; a present
      one is called, and if it raises, the exception is caught and reported
      and nothing else happens. `raising` holds the callbacks that raise. */
  function Invoke<C>(handlers: set<Slot>, slot: Slot, call: C, raising: set<Slot>): (r: seq<Event<C>>)
    ensures slot !in handlers <==> r == []
    ensures slot in handlers ==> r[0] == Invoked(call)
    ensures slot in handlers ==> r[1..] == (if slot in raising then [Raised(slot)] else [])
  {
    if slot !in handlers then []
    else [Invoked(call)] + (if slot in raising then [Raised(slot)] else [])
  }

  /** The callback arguments of the invocations in a trace, in order; what
      a user sees of the trace. */
  function Calls<C>(events: seq<Event<C>>): seq<C> {
    if events == [] then []
    else Calls(events[..|events| - 1]) +
         (if events[|events| - 1].Invoked? then [events[|events| - 1].call] else [])
  }

  lemma {:induction false} CallsAppend<C>(a: seq<Event<C>>, b: seq<Event<C>>)
    ensures Calls(a + b) == Calls(a) + Calls(b)
    decreases |b|
  {
    if b != [] {
      assert (a + b)[..|a + b| - 1] == a + b[..|b| - 1];
      CallsAppend(a, b[..|b| - 1]);
    } else {
      assert a + b == a;
    }
  }

  /** Whether a callback raises never changes which callbacks are called:
      the isolation rule of `__callback`. */
  lemma InvokeCallsIgnoreRaising<C>(handlers: set<Slot>, slot: Slot, call: C, raising: set<Slot>)
    ensures Calls(Invoke(handlers, slot, call, raising)) == if slot in handlers then [call] else []
  {
    if slot in handlers {
      var r := Invoke(handlers, slot, call, raising);
      if slot in raising {
        assert r == [Invoked(call)] + [Raised(slot)];
        assert r[..1] == [Invoked(call)];
        assert Calls(r[..1]) == Calls([]) + [call];
      } else {
        assert Calls(r) == Calls([]) + [call];
      }
    }
  }

  /** `{"method": "subscribe", "params": {"channel": channel}}`. */
  function SubscribeFrame(channel: string): Json {
    JObj(map["method" := JStr("subscribe"), "params" := JObj(map["channel" := JStr(channel)])])
  }

  /** The channel a subscribe frame asks for, read back the way the venue
      reads it; `None` for any other frame. */
  function SubscribedChannel(frame: Json): Option<string> {
    if frame.JObj? && "method" in frame.fields && frame.fields["method"] == JStr("subscribe")
       && "params" in frame.fields
    then
      var params := frame.fields["params"];
      if params.JObj? && "channel" in params.fields && params.fields["channel"].JStr?
      then Some(params.fields["channel"].s) else None
    else None
  }

  /** A subscribe frame carries exactly the channel it was built from. */
  lemma SubscribeRoundTrip(channel: string)
    ensures SubscribedChannel(SubscribeFrame(channel)) == Some(channel)
  {
  }

  /** The trace of sending one subscribe frame per channel, in order. */
  function Subscriptions<C>(channels: seq<string>): (r: seq<Event<C>>)
    ensures |r| == |channels|
    ensures forall i :: 0 <= i < |channels| ==> r[i] == Sent(SubscribeFrame(channels[i]))
  {
    seq(|channels|, i requires 0 <= i < |channels| => Sent(SubscribeFrame(channels[i])))
  }

  /** The channels subscribed to by the frames sent in a trace, in order. */
  function SentChannels<C>(events: seq<Event<C>>): seq<string> {
    if events == [] then []
    else
      var e := events[|events| - 1];
      SentChannels(events[..|events| - 1]) +
        (if e.Sent? && SubscribedChannel(e.frame).Some? then [SubscribedChannel(e.frame).value] else [])
  }

  /** Exactly one subscribe frame per channel, in the given order,
      duplicates included. */
  lemma {:induction false} SubscriptionsExact<C>(channels: seq<string>)
    ensures SentChannels(Subscriptions<C>(channels)) == channels
    decreases |channels|
  {
    if channels != [] {
      var n := |channels| - 1;
      var r := Subscriptions<C>(channels);
      assert r[..n] == Subscriptions<C>(channels[..n]);
      SubscriptionsExact<C>(channels[..n]);
      SubscribeRoundTrip(channels[n]);
      assert channels[..n] + [channels[n]] == channels;
    }
  }

  /** How many subscribe frames go out before `ws.send` raises at index
      `failAt` (the exception leaves the loop; later channels are not sent). */
  function SentCount(n: nat, failAt: Option<nat>): (k: nat)
    ensures k <= n
    ensures k == n <==> failAt.None? || failAt.value >= n
  {
    if failAt.Some? && failAt.value < n then failAt.value else n
  }

  /** An incoming frame, as far as the dispatchers read it. */
  datatype Envelope =
    | Malformed                                   // Python raises while reading it
    | Control                                     // `method` is not "channelMessage"
    | Notification(channel: string, message: Json)

  /** `rcv_msg["method"]`, then `params["channel"]` and `params["message"]`. */
  function EnvelopeOf(frame: Json): (e: Envelope)
    ensures e.Control? <==> frame.JObj? && "method" in frame.fields &&
                            frame.fields["method"] != JStr("channelMessage")
    ensures e.Notification? ==> Field(frame, "method") == Some(JStr("channelMessage"))
  {
    match Field(frame, "method")
    case None => Malformed
    case Some(tag) =>
      if tag != JStr("channelMessage") then Control
      else
        match Field(frame, "params")
        case None => Malformed
        case Some(params) =>
          match (Field(params, "channel"), Field(params, "message"))
          case (Some(JStr(channel)), Some(message)) => Notification(channel, message)
          case _ => Malformed
  }

  /** The frame the venue sends on a channel. */
  function NotificationFrame(channel: string, message: Json): Json {
    JObj(map["jsonrpc" := JStr("2.0"), "method" := JStr("channelMessage"),
             "params" := JObj(map["channel" := JStr(channel), "message" := message])])
  }

  lemma NotificationRoundTrip(channel: string, message: Json)
    ensures EnvelopeOf(NotificationFrame(channel, message)) == Notification(channel, message)
  {
  }
}
