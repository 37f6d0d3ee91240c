/** `stream_api`: the older streaming client. It is built for one trade
    pair, subscribes to `prefix + pair` for each channel prefix given, and
    routes an incoming notification by asking, in a fixed order, which
    channel prefix occurs in the channel name. It does not check the pair,
    and its callbacks receive the raw channel name. */
module StreamApi {
  import opened Json
  import opened Text
  import opened Payloads
  import opened Stream
  import Realtime

  /** `enum_channel`: the members are the same four channel kinds as the
      newer client's headers, but each value already ends with `_`. */
  function ChannelPrefix(k: Realtime.InfoChannel): string {
    match k
    case BoardSnapshot => "lightning_board_snapshot_"
    case Board => "lightning_board_"
    case Ticker => "lightning_ticker_"
    case Executions => "lightning_executions_"
  }

  /** Each prefix is the newer client's header with its `_` separator. */
  lemma ChannelPrefixIsHeaderTag(k: Realtime.InfoChannel)
    ensures ChannelPrefix(k) == Realtime.HeaderTag(k)
    ensures ChannelPrefix(k) == Realtime.HeaderValue(k) + "_"
  {
  }

  /** `ch.value + pair.value`: one listen channel (`enum_pair` has the same
      members and values as `TradePair`). */
  function ListenName(k: Realtime.InfoChannel, pair: Realtime.TradePair): string {
    ChannelPrefix(k) + Realtime.PairValue(pair)
  }

  /** The legacy names are the newer client's channel names. */
  lemma ListenNameIsChannelName(k: Realtime.InfoChannel, pair: Realtime.TradePair)
    ensures ListenName(k, pair) == Realtime.ChannelName(Realtime.ListenChannel(k, pair))
  {
    ChannelPrefixIsHeaderTag(k);
    assert Realtime.HeaderValue(k) + "_" + Realtime.PairValue(pair)
        == (Realtime.HeaderValue(k) + "_") + Realtime.PairValue(pair);
  }

  /** `listen_channels`: one name per given prefix, in order. */
  function ListenNames(channels: seq<Realtime.InfoChannel>, pair: Realtime.TradePair): (r: seq<string>)
    ensures |r| == |channels|
    ensures forall i :: 0 <= i < |channels| ==> r[i] == ListenName(channels[i], pair)
  {
    seq(|channels|, i requires 0 <= i < |channels| => ListenName(channels[i], pair))
  }

  // ---------------------------------------------------------------------------
  // Routing: the `if ... elif ...` chain of `__ws_on_message`
  // ---------------------------------------------------------------------------

  /** The order in which the chain tests the prefixes. */
  const DispatchOrder: seq<Realtime.InfoChannel> :=
    [Realtime.BoardSnapshot, Realtime.Board, Realtime.Ticker, Realtime.Executions]

  /** The position of the first kind in `order` whose prefix occurs in the
      channel name, or `|order|` when none does. */
  function FirstContained(order: seq<Realtime.InfoChannel>, channel: string): (k: nat)
    ensures k <= |order|
    ensures k < |order| ==> Contains(channel, ChannelPrefix(order[k]))
    ensures forall i :: 0 <= i < k ==> !Contains(channel, ChannelPrefix(order[i]))
  {
    if order == [] then 0
    else if Contains(channel, ChannelPrefix(order[0])) then 0
    else
      var k := FirstContained(order[1..], channel);
      assert forall i :: 1 <= i < k + 1 ==> order[i] == order[1..][i - 1];
      k + 1
  }

  /** The category handler a channel name is routed to by a chain that tests
      the prefixes in `order`. */
  function RouteBy(order: seq<Realtime.InfoChannel>, channel: string): Option<Realtime.InfoChannel> {
    var k := FirstContained(order, channel);
    if k < |order| then Some(order[k]) else None
  }

  /** The handler `__ws_on_message` routes a channel name to. */
  function Route(channel: string): Option<Realtime.InfoChannel> {
    RouteBy(DispatchOrder, channel)
  }

  /** A channel is routed exactly when one of the four prefixes occurs in it,
      and then to the first such prefix in the chain's order. */
  lemma RouteSpec(channel: string)
    ensures Route(channel).None? <==> forall k :: !Contains(channel, ChannelPrefix(k))
    ensures Route(channel).Some? ==> Contains(channel, ChannelPrefix(Route(channel).value))
    ensures Route(channel).Some? ==>
              forall k :: Realtime.HeaderIndex(k) < Realtime.HeaderIndex(Route(channel).value) ==>
                !Contains(channel, ChannelPrefix(k))
  {
    var n := FirstContained(DispatchOrder, channel);
    forall k ensures DispatchOrder[Realtime.HeaderIndex(k)] == k {
      assert Realtime.InfoChannels[Realtime.HeaderIndex(k)] == k;
    }
    if Route(channel).Some? {
      assert Realtime.HeaderIndex(Route(channel).value) == n;
    } else {
      forall k ensures !Contains(channel, ChannelPrefix(k)) {
        var i := Realtime.HeaderIndex(k);
        assert !Contains(channel, ChannelPrefix(DispatchOrder[i]));
      }
    }
  }

  /** The `if ... elif ...` chain as written: the first test that succeeds. */
  lemma RouteChain(channel: string)
    ensures Route(channel) ==
      if Contains(channel, ChannelPrefix(Realtime.BoardSnapshot)) then Some(Realtime.BoardSnapshot)
      else if Contains(channel, ChannelPrefix(Realtime.Board)) then Some(Realtime.Board)
      else if Contains(channel, ChannelPrefix(Realtime.Ticker)) then Some(Realtime.Ticker)
      else if Contains(channel, ChannelPrefix(Realtime.Executions)) then Some(Realtime.Executions)
      else None
  {
    var o := DispatchOrder;
    assert o[1..][1..][1..][1..] == [];
    assert o[0] == Realtime.BoardSnapshot && o[1..][0] == Realtime.Board;
    assert o[1..][1..][0] == Realtime.Ticker && o[1..][1..][1..][0] == Realtime.Executions;
  }

  /** Every listen channel is routed to its own handler. */
  lemma RouteListenName(k: Realtime.InfoChannel, pair: Realtime.TradePair)
    ensures Route(ListenName(k, pair)) == Some(k)
  {
    var s := ListenName(k, pair);
    var c := Realtime.ListenChannel(k, pair);
    ListenNameIsChannelName(k, pair);
    ChannelPrefixIsHeaderTag(k);
    assert s == ChannelPrefix(k) + Realtime.PairValue(pair);
    ContainsSuffix([], ChannelPrefix(k) + Realtime.PairValue(pair));
    ContainsPrefixOfPattern(s, ChannelPrefix(k), Realtime.PairValue(pair));
    forall i | 0 <= i < Realtime.HeaderIndex(k) ensures !Contains(s, ChannelPrefix(DispatchOrder[i])) {
      ChannelPrefixIsHeaderTag(DispatchOrder[i]);
      Realtime.EarlierTagAbsent(c, DispatchOrder[i]);
    }
    assert FirstContained(DispatchOrder, s) == Realtime.HeaderIndex(k);
  }

  /** Why the snapshot prefix is tested first: the board prefix also occurs
      in every snapshot channel, so a chain testing it first would route
      snapshot channels to the board handler. */
  lemma SnapshotBeforeBoard(pair: Realtime.TradePair)
    ensures Contains(ListenName(Realtime.BoardSnapshot, pair), ChannelPrefix(Realtime.Board))
    ensures Route(ListenName(Realtime.BoardSnapshot, pair)) == Some(Realtime.BoardSnapshot)
    ensures RouteBy([Realtime.Board, Realtime.BoardSnapshot, Realtime.Ticker, Realtime.Executions],
                    ListenName(Realtime.BoardSnapshot, pair)) == Some(Realtime.Board)
  {
    Realtime.BoardHeaderRejectsSnapshot(pair);
    ListenNameIsChannelName(Realtime.BoardSnapshot, pair);
    ChannelPrefixIsHeaderTag(Realtime.Board);
    RouteListenName(Realtime.BoardSnapshot, pair);
  }

  /** The older client does not check the pair: a ticker channel of a pair
      it does not know is still routed to the ticker handler, where the
      newer client parses it as `(None, None)`. `v` stands for a product
      code such as "XRP_JPY". */
  lemma NoPairCheck(v: string)
    requires v != Realtime.PairValue(Realtime.BtcJpy) && v != Realtime.PairValue(Realtime.FxBtcJpy)
    requires 'l' !in v && 'p' !in v && 'b' !in v && 'x' !in v
    ensures Route(ChannelPrefix(Realtime.Ticker) + v) == Some(Realtime.Ticker)
    ensures Realtime.ChannelOf(ChannelPrefix(Realtime.Ticker) + v).None?
  {
    TickerPrefixRoute(v);
    TickerPrefixUnparsed(v);
  }

  /** The letters of the other prefixes that the ticker prefix lacks. */
  lemma TickerPrefixLacks()
    ensures 'p' !in ChannelPrefix(Realtime.Ticker) && 'b' !in ChannelPrefix(Realtime.Ticker)
    ensures 'x' !in ChannelPrefix(Realtime.Ticker)
  {
  }

  /** The legacy chain sends the ticker prefix followed by `v` to the ticker
      handler when `v` holds no letter of the earlier prefixes. */
  lemma TickerPrefixRoute(v: string)
    requires 'p' !in v && 'b' !in v
    ensures Route(ChannelPrefix(Realtime.Ticker) + v) == Some(Realtime.Ticker)
  {
    var tag := ChannelPrefix(Realtime.Ticker);
    var s := tag + v;
    ChannelPrefixIsHeaderTag(Realtime.Ticker);
    ChannelPrefixIsHeaderTag(Realtime.BoardSnapshot);
    ChannelPrefixIsHeaderTag(Realtime.Board);
    ContainsSuffix([], s);
    assert [] + s == s;
    ContainsPrefixOfPattern(s, tag, v);
    TickerPrefixLacks();
    Realtime.HeaderTagHas(Realtime.BoardSnapshot);
    Realtime.HeaderTagHas(Realtime.Board);
    Realtime.NotContainedByChar(s, ChannelPrefix(Realtime.BoardSnapshot), 'p');
    Realtime.NotContainedByChar(s, ChannelPrefix(Realtime.Board), 'b');
    RouteChain(s);
  }

  /** The newer client's parser rejects the ticker prefix followed by a
      string that is not a pair and has no letter of another header. */
  lemma TickerPrefixUnparsed(v: string)
    requires v != Realtime.PairValue(Realtime.BtcJpy) && v != Realtime.PairValue(Realtime.FxBtcJpy)
    requires 'l' !in v && 'p' !in v && 'b' !in v && 'x' !in v
    ensures Realtime.ChannelOf(ChannelPrefix(Realtime.Ticker) + v).None?
  {
    var tag := ChannelPrefix(Realtime.Ticker);
    var s := tag + v;
    TickerPrefixLacks();
    forall h ensures !Realtime.Accepts(h, s) {
      ChannelPrefixIsHeaderTag(h);
      Realtime.HeaderTagHas(h);
      match h {
        case BoardSnapshot =>
          Realtime.NotContainedByChar(s, ChannelPrefix(h), 'p');
        case Board =>
          Realtime.NotContainedByChar(s, ChannelPrefix(h), 'b');
        case Ticker =>
          RemoveAllLeading(tag, v);
          Realtime.NotContainedByChar(v, tag, 'l');
          RemoveAllAbsent(v, tag);
          Realtime.PairOfOther(v);
        case Executions =>
          Realtime.NotContainedByChar(s, ChannelPrefix(h), 'x');
      }
    }
    Realtime.ChannelOfComplete(s);
  }

  /** On the channels both clients subscribe to, they choose the same
      category handler. */
  lemma RoutesAgree(k: Realtime.InfoChannel, pair: Realtime.TradePair)
    ensures Route(ListenName(k, pair)) == Some(k)
    ensures Realtime.ChannelOf(ListenName(k, pair)) == Some((k, pair))
  {
    RouteListenName(k, pair);
    ListenNameIsChannelName(k, pair);
    Realtime.ChannelNameRoundTrip(Realtime.ListenChannel(k, pair));
  }

  // ---------------------------------------------------------------------------
  // Dispatch
  // ---------------------------------------------------------------------------

  /** The arguments a callback is called with (after the client itself). */
  datatype Call =
    | MessageCall(channel: string, message: Json)
    | BoardSnapshotCall(board: BoardData)
    | BoardCall(board: BoardData)
    | TickerCall(ticker: TickerData)
    | ExecutionsCall(executions: seq<ExecutionData>)
    | CloseCall(args: seq<Json>)

  /** The category handler's callback slot. */
  function HandlerSlot(k: Realtime.InfoChannel): Slot {
    match k
    case BoardSnapshot => OnMessageBoardSnapshot
    case Board => OnMessageBoard
    case Ticker => OnMessageTicker
    case Executions => OnMessageExecutions
  }

  /** The category callback's arguments, if the payload decodes. */
  function HandlerCall(k: Realtime.InfoChannel, message: Json): (r: Option<Call>)
    ensures r.Some? ==> !r.value.MessageCall? && !r.value.CloseCall?
  {
    match k
    case BoardSnapshot =>
      (match DecodeBoard(message) case Some(d) => Some(BoardSnapshotCall(d)) case None => None)
    case Board =>
      (match DecodeBoard(message) case Some(d) => Some(BoardCall(d)) case None => None)
    case Ticker =>
      (match DecodeTicker(message) case Some(d) => Some(TickerCall(d)) case None => None)
    case Executions =>
      (match ExecutionsOf(message) case Some(ds) => Some(ExecutionsCall(ds)) case None => None)
  }

  /** What a category handler does. */
  function HandlerEvents(handlers: set<Slot>, k: Realtime.InfoChannel, message: Json,
                         raising: set<Slot>): seq<Event<Call>>
  {
    match HandlerCall(k, message)
    case None => []
    case Some(call) => Invoke(handlers, HandlerSlot(k), call, raising)
  }

  /** What the `elif` chain does: the routed category handler, if any. */
  function RoutedEvents(handlers: set<Slot>, channel: string, message: Json,
                        raising: set<Slot>): seq<Event<Call>>
  {
    match Route(channel)
    case None => []
    case Some(k) => HandlerEvents(handlers, k, message, raising)
  }

  /** Everything `__ws_on_message` does for one incoming frame. */
  function FrameEvents(handlers: set<Slot>, frame: Json, raising: set<Slot>): (r: seq<Event<Call>>)
    ensures !EnvelopeOf(frame).Notification? ==> r == []
  {
    match EnvelopeOf(frame)
    case Notification(channel, message) =>
      Invoke(handlers, OnMessage, MessageCall(channel, message), raising) +
      RoutedEvents(handlers, channel, message, raising)
    case _ => []
  }

  /** The callbacks called for one frame, independently of which of them
      raise: for a data notification the generic one (if registered) with
      the raw channel name, then at most one category callback. */
  function ExpectedCalls(handlers: set<Slot>, envelope: Envelope): (r: seq<Call>)
    ensures !envelope.Notification? ==> r == []
    ensures envelope.Notification? && OnMessage in handlers ==>
              |r| >= 1 && r[0] == MessageCall(envelope.channel, envelope.message)
    ensures |r| <= 2
  {
    match envelope
    case Notification(channel, message) =>
      (if OnMessage in handlers then [MessageCall(channel, message)] else []) +
      (match Route(channel)
       case None => []
       case Some(k) =>
         match HandlerCall(k, message)
         case None => []
         case Some(call) => if HandlerSlot(k) in handlers then [call] else [])
    case _ => []
  }

  /** The callbacks called for a frame are exactly the expected ones,
      whichever callbacks raise. */
  lemma FrameCalls(handlers: set<Slot>, frame: Json, raising: set<Slot>)
    ensures Calls(FrameEvents(handlers, frame, raising)) == ExpectedCalls(handlers, EnvelopeOf(frame))
  {
    match EnvelopeOf(frame) {
      case Notification(channel, message) =>
        var generic := Invoke(handlers, OnMessage, MessageCall(channel, message), raising);
        var rest := RoutedEvents(handlers, channel, message, raising);
        CallsAppend(generic, rest);
        InvokeCallsIgnoreRaising(handlers, OnMessage, MessageCall(channel, message), raising);
        match Route(channel) {
          case None =>
          case Some(k) =>
            match HandlerCall(k, message) {
              case None =>
              case Some(call) => InvokeCallsIgnoreRaising(handlers, HandlerSlot(k), call, raising);
            }
        }
      case _ =>
    }
  }

  /** The calls made do not depend on which callbacks raise. */
  lemma FailureIsolation(handlers: set<Slot>, frame: Json, raising: set<Slot>)
    ensures Calls(FrameEvents(handlers, frame, raising)) == Calls(FrameEvents(handlers, frame, {}))
  {
    FrameCalls(handlers, frame, raising);
    FrameCalls(handlers, frame, {});
  }

  /** A channel name holding none of the prefixes reaches only the generic
      callback. */
  lemma UnroutedChannelCalls(handlers: set<Slot>, channel: string, message: Json, raising: set<Slot>)
    requires forall k :: !Contains(channel, ChannelPrefix(k))
    ensures Calls(FrameEvents(handlers, NotificationFrame(channel, message), raising)) ==
            if OnMessage in handlers then [MessageCall(channel, message)] else []
  {
    RouteSpec(channel);
    NotificationRoundTrip(channel, message);
    FrameCalls(handlers, NotificationFrame(channel, message), raising);
  }

  // ---------------------------------------------------------------------------
  // The client object
  // ---------------------------------------------------------------------------

  /** `stream_api`, with the same fields as the newer client's object. */
  class StreamClient {
    const handlers: set<Slot>
    var listenChannels: seq<string>
    var ws: Option<nat>
    var created: nat
    var log: seq<Event<Call>>

    /** `__init__`: one `prefix + pair` entry per given channel, in order. */
    constructor (pair: Realtime.TradePair, channels: seq<Realtime.InfoChannel>, handlers: set<Slot>)
      ensures this.handlers == handlers
      ensures listenChannels == ListenNames(channels, pair)
      ensures ws == None && created == 0 && log == []
    {
      var names := [];
      var i := 0;
      while i < |channels|
        invariant 0 <= i <= |channels|
        invariant |names| == i
        invariant forall j :: 0 <= j < i ==> names[j] == ListenName(channels[j], pair)
      {
        names := names + [ListenName(channels[i], pair)];
        i := i + 1;
      }
      this.handlers := handlers;
      listenChannels := names;
      ws := None;
      created := 0;
      log := [];
    }

    /** `__ws_on_open`: one subscribe frame per listen channel, in order;
        if `ws.send` raises at index `failAt`, the loop ends there. */
    method OnOpen(failAt: Option<nat>)
      modifies this`log
      ensures log == old(log) + Subscriptions(listenChannels[..SentCount(|listenChannels|, failAt)])
    {
      var n := SentCount(|listenChannels|, failAt);
      var i := 0;
      while i < n
        invariant 0 <= i <= n
        invariant log == old(log) + Subscriptions(listenChannels[..i])
      {
        log := log + [Sent(SubscribeFrame(listenChannels[i]))];
        i := i + 1;
        assert Subscriptions<Call>(listenChannels[..i]) ==
               Subscriptions<Call>(listenChannels[..i - 1]) + [Sent(SubscribeFrame(listenChannels[i - 1]))];
      }
    }

    /** `__callback`. */
    method Callback(slot: Slot, call: Call, raising: set<Slot>)
      modifies this`log
      ensures log == old(log) + Invoke(handlers, slot, call, raising)
    {
      if slot in handlers {
        log := log + [Invoked(call)];
        if slot in raising {
          log := log + [Raised(slot)];
        }
      }
    }

    /** `__ws_on_message_board_snapshot`. */
    method OnMessageBoardSnapshot(message: Json, raising: set<Slot>)
      modifies this`log
      ensures log == old(log) + HandlerEvents(handlers, Realtime.BoardSnapshot, message, raising)
    {
      var data := DecodeBoard(message);
      if data.Some? {
        Callback(Stream.OnMessageBoardSnapshot, BoardSnapshotCall(data.value), raising);
      }
    }

    /** `__ws_on_message_board`. */
    method OnMessageBoard(message: Json, raising: set<Slot>)
      modifies this`log
      ensures log == old(log) + HandlerEvents(handlers, Realtime.Board, message, raising)
    {
      var data := DecodeBoard(message);
      if data.Some? {
        Callback(Stream.OnMessageBoard, BoardCall(data.value), raising);
      }
    }

    /** `__ws_on_message_ticker`. */
    method OnMessageTicker(message: Json, raising: set<Slot>)
      modifies this`log
      ensures log == old(log) + HandlerEvents(handlers, Realtime.Ticker, message, raising)
    {
      var data := DecodeTicker(message);
      if data.Some? {
        Callback(Stream.OnMessageTicker, TickerCall(data.value), raising);
      }
    }

    /** `__ws_on_message_executions`. */
    method OnMessageExecutions(message: Json, raising: set<Slot>)
      modifies this`log
      ensures log == old(log) + HandlerEvents(handlers, Realtime.Executions, message, raising)
    {
      var dataList := DecodeExecutions(message);
      if dataList.Some? {
        Callback(Stream.OnMessageExecutions, ExecutionsCall(dataList.value), raising);
      }
    }

    /** `__ws_on_message`: the generic callback, then the `elif` chain. */
    method OnMessage(frame: Json, raising: set<Slot>)
      modifies this`log
      ensures log == old(log) + FrameEvents(handlers, frame, raising)
    {
      var envelope := EnvelopeOf(frame);
      if !envelope.Notification? {
        return;
      }
      Callback(Stream.OnMessage, MessageCall(envelope.channel, envelope.message), raising);
      Dispatch(envelope.channel, envelope.message, raising);
    }

    /** The `if ... elif ...` chain of `__ws_on_message`: the first prefix
        contained in the channel name picks the category handler. */
    method Dispatch(channel: string, message: Json, raising: set<Slot>)
      modifies this`log
      ensures log == old(log) + RoutedEvents(handlers, channel, message, raising)
    {
      RouteChain(channel);
      if Contains(channel, ChannelPrefix(Realtime.BoardSnapshot)) {
        OnMessageBoardSnapshot(message, raising);
      } else if Contains(channel, ChannelPrefix(Realtime.Board)) {
        OnMessageBoard(message, raising);
      } else if Contains(channel, ChannelPrefix(Realtime.Ticker)) {
        OnMessageTicker(message, raising);
      } else if Contains(channel, ChannelPrefix(Realtime.Executions)) {
        OnMessageExecutions(message, raising);
      }
    }

    /** `__ws_on_close`: only the close callback; the handle is kept. */
    method OnClose(args: seq<Json>, raising: set<Slot>)
      modifies this`log
      ensures log == old(log) + Invoke(handlers, Stream.OnClose, CloseCall(args), raising)
    {
      Callback(Stream.OnClose, CloseCall(args), raising);
    }

    /** `start`: an existing handle is stopped first; then a new one is
        created. */
    method Start()
      modifies this`ws, this`created, this`log
      ensures ws == Some(old(created)) && created == old(created) + 1
      ensures log == old(log) + (if old(ws).Some? then [TransportClosed(old(ws).value)] else [])
                              + [TransportOpened(old(created))]
    {
      if ws.Some? {
        var _ := Stop();
      }
      ws := Some(created);
      log := log + [TransportOpened(created)];
      created := created + 1;
    }

    /** `stop`: with no handle Python raises; `ok` is false and nothing
        changes. */
    method Stop() returns (ok: bool)
      modifies this`ws, this`log
      ensures ok == old(ws).Some?
      ensures ok ==> ws.None? && log == old(log) + [TransportClosed(old(ws).value)]
      ensures !ok ==> ws == old(ws) && log == old(log)
    {
      if ws.None? {
        return false;
      }
      log := log + [TransportClosed(ws.value)];
      ws := None;
      return true;
    }
  }
}
