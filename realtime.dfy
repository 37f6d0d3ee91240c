/** `RealtimeAPI`: the streaming client. It subscribes to a list of channels
    when the transport opens, splits each incoming channel name into a header
    and a trade pair, and calls the generic callback and then at most one
    category callback per data notification. */
module Realtime {
  import opened Json
  import opened Text
  import opened EnumLookup
  import opened Payloads
  import opened Stream

  /** `TradePair`. */
  datatype TradePair = BtcJpy | FxBtcJpy

  function PairValue(p: TradePair): string {
    match p
    case BtcJpy => "BTC_JPY"
    case FxBtcJpy => "FX_BTC_JPY"
  }

  /** The members of `TradePair` in declaration order. */
  const TradePairs: seq<TradePair> := [BtcJpy, FxBtcJpy]

  /** `InfoChannel`: the channel headers. */
  datatype InfoChannel = BoardSnapshot | Board | Ticker | Executions

  function HeaderValue(h: InfoChannel): string {
    match h
    case BoardSnapshot => "lightning_board_snapshot"
    case Board => "lightning_board"
    case Ticker => "lightning_ticker"
    case Executions => "lightning_executions"
  }

  /** The members of `InfoChannel` in declaration order. */
  const InfoChannels: seq<InfoChannel> := [BoardSnapshot, Board, Ticker, Executions]

  /** A `ListenChannel` member; its name is the header, `_`, and the pair. */
  datatype ListenChannel = ListenChannel(header: InfoChannel, pair: TradePair)

  function ChannelName(c: ListenChannel): string {
    HeaderValue(c.header) + "_" + PairValue(c.pair)
  }

  /** The `.value` of each channel given to the constructor, in order. */
  function ChannelNames(cs: seq<ListenChannel>): (r: seq<string>)
    ensures |r| == |cs|
    ensures forall i :: 0 <= i < |cs| ==> r[i] == ChannelName(cs[i])
  {
    seq(|cs|, i requires 0 <= i < |cs| => ChannelName(cs[i]))
  }

  /** The eight `ListenChannel` values follow the naming rule. */
  lemma ListenChannelTable()
    ensures ChannelName(ListenChannel(BoardSnapshot, BtcJpy)) == "lightning_board_snapshot_BTC_JPY"
    ensures ChannelName(ListenChannel(Board, BtcJpy)) == "lightning_board_BTC_JPY"
    ensures ChannelName(ListenChannel(Ticker, BtcJpy)) == "lightning_ticker_BTC_JPY"
    ensures ChannelName(ListenChannel(Executions, BtcJpy)) == "lightning_executions_BTC_JPY"
    ensures ChannelName(ListenChannel(BoardSnapshot, FxBtcJpy)) == "lightning_board_snapshot_FX_BTC_JPY"
    ensures ChannelName(ListenChannel(Board, FxBtcJpy)) == "lightning_board_FX_BTC_JPY"
    ensures ChannelName(ListenChannel(Ticker, FxBtcJpy)) == "lightning_ticker_FX_BTC_JPY"
    ensures ChannelName(ListenChannel(Executions, FxBtcJpy)) == "lightning_executions_FX_BTC_JPY"
  {
  }

  // ---------------------------------------------------------------------------
  // Channel parsing (`__parse_channel`)
  // ---------------------------------------------------------------------------

  /** The fragment searched for: the header followed by `_`. */
  function HeaderTag(h: InfoChannel): (t: string)
    ensures t != []
  {
    HeaderValue(h) + "_"
  }

  /** The `TradePair` member whose value is `s`, if any. */
  function PairOf(s: string): Option<TradePair> {
    FirstWithValue(TradePairs, PairValue, s)
  }

  /** A channel is accepted under header `h` when `h + '_'` occurs anywhere
      in it and removing every occurrence leaves a trade pair's value. */
  predicate Accepts(h: InfoChannel, channel: string) {
    Contains(channel, HeaderTag(h)) && PairOf(RemoveAll(channel, HeaderTag(h))).Some?
  }

  /** The position of the first header of `headers` that accepts `channel`,
      or `|headers|` when none does. */
  function FirstAccepting(headers: seq<InfoChannel>, channel: string): (k: nat)
    ensures k <= |headers|
    ensures k < |headers| ==> Accepts(headers[k], channel)
    ensures forall i :: 0 <= i < k ==> !Accepts(headers[i], channel)
  {
    if headers == [] then 0
    else if Accepts(headers[0], channel) then 0
    else
      var k := FirstAccepting(headers[1..], channel);
      assert forall i :: 1 <= i < k + 1 ==> headers[i] == headers[1..][i - 1];
      k + 1
  }

  /** What `__parse_channel` returns for a channel name: `(header, pair)`,
      or nothing for `(None, None)`. */
  function ChannelOf(channel: string): Option<(InfoChannel, TradePair)> {
    var k := FirstAccepting(InfoChannels, channel);
    if k < |InfoChannels| then
      Some((InfoChannels[k], PairOf(RemoveAll(channel, HeaderTag(InfoChannels[k]))).value))
    else None
  }

  /** A parsed channel is `header + '_'` and a pair value: the tag occurs in
      it and removing it leaves exactly the pair's value; the header is the
      first one in declaration order that accepts the channel. */
  lemma ChannelOfSound(channel: string)
    requires ChannelOf(channel).Some?
    ensures Contains(channel, HeaderTag(ChannelOf(channel).value.0))
    ensures RemoveAll(channel, HeaderTag(ChannelOf(channel).value.0)) == PairValue(ChannelOf(channel).value.1)
    ensures forall h :: HeaderIndex(h) < HeaderIndex(ChannelOf(channel).value.0) ==> !Accepts(h, channel)
  {
    var k := FirstAccepting(InfoChannels, channel);
    var (h, p) := ChannelOf(channel).value;
    assert PairOf(RemoveAll(channel, HeaderTag(h))) == Some(p);
    assert HeaderIndex(h) == k;
    forall h' | HeaderIndex(h') < k ensures !Accepts(h', channel) {
      assert InfoChannels[HeaderIndex(h')] == h';
    }
  }

  /** A channel is parsed exactly when some header accepts it. */
  lemma ChannelOfComplete(channel: string)
    ensures ChannelOf(channel).None? <==> forall h :: !Accepts(h, channel)
  {
    if ChannelOf(channel).None? {
      forall h ensures !Accepts(h, channel) {
        assert h == InfoChannels[HeaderIndex(h)];
      }
    }
  }

  /** The position of a header in declaration order. */
  function HeaderIndex(h: InfoChannel): (i: nat)
    ensures i < |InfoChannels| && InfoChannels[i] == h
  {
    match h
    case BoardSnapshot => 0
    case Board => 1
    case Ticker => 2
    case Executions => 3
  }

  /** The header at position `j` has position `j`. */
  lemma HeaderAt(j: nat)
    requires j < |InfoChannels|
    ensures HeaderIndex(InfoChannels[j]) == j
  {
    if j == 0 {
    } else if j == 1 {
    } else if j == 2 {
    } else {
    }
  }

  /** `c in pat` but not in `s` rules out `pat` occurring in `s`. */
  lemma NotContainedByChar(s: string, pat: string, c: char)
    requires c in pat && c !in s
    ensures !Contains(s, pat)
  {
    if Contains(s, pat) {
      ContainsChars(s, pat, c);
    }
  }

  /** The values of `TradePair` are distinct, so a pair's value parses back. */
  lemma PairOfValue(p: TradePair)
    ensures PairOf(PairValue(p)) == Some(p)
  {
    FirstWithValueUnique(TradePairs, PairValue, p);
  }

  /** The header `h` accepts its own channel names, with the right pair. */
  lemma AcceptsOwnName(c: ListenChannel)
    ensures Accepts(c.header, ChannelName(c))
    ensures RemoveAll(ChannelName(c), HeaderTag(c.header)) == PairValue(c.pair)
  {
    var tag := HeaderTag(c.header);
    var v := PairValue(c.pair);
    assert ChannelName(c) == tag + v;
    assert (tag + v)[..|tag|] == tag;
    RemoveAllLeading(tag, v);
    RemoveAllAbsent(v, tag);
    PairOfValue(c.pair);
  }

  /** No pair value has the letters that tell the headers apart. */
  lemma PairValueLacks(p: TradePair)
    ensures 'p' !in PairValue(p) && 'b' !in PairValue(p) && 'k' !in PairValue(p)
  {
  }

  /** A header value lacks the telling letter of every header declared
      before it: 'p' of "snapshot", 'b' of "board", 'k' of "ticker". */
  lemma HeaderValueLacks(h: InfoChannel)
    ensures HeaderIndex(h) > 0 ==> 'p' !in HeaderValue(h)
    ensures HeaderIndex(h) > 1 ==> 'b' !in HeaderValue(h)
    ensures HeaderIndex(h) > 2 ==> 'k' !in HeaderValue(h)
  {
    match h {
      case BoardSnapshot =>
      case Board =>
      case Ticker =>
      case Executions =>
    }
  }

  /** The telling letter of each header is in its tag. */
  lemma HeaderTagHas(h: InfoChannel)
    ensures h == BoardSnapshot ==> 'p' in HeaderTag(h)
    ensures h == Board ==> 'b' in HeaderTag(h)
    ensures h == Ticker ==> 'k' in HeaderTag(h)
    ensures h == Executions ==> 'x' in HeaderTag(h)
    ensures 'l' in HeaderTag(h) && 'g' in HeaderTag(h)
  {
    assert HeaderTag(h)[0] == 'l' && HeaderTag(h)[2] == 'g';
    match h {
      case BoardSnapshot => assert HeaderTag(h)[19] == 'p';
      case Board => assert HeaderTag(h)[10] == 'b';
      case Ticker => assert HeaderTag(h)[13] == 'k';
      case Executions => assert HeaderTag(h)[11] == 'x';
    }
  }

  /** A channel name does not contain the tag of any header declared before
      its own, because it lacks that header's telling letter. */
  lemma EarlierTagAbsent(c: ListenChannel, h: InfoChannel)
    requires HeaderIndex(h) < HeaderIndex(c.header)
    ensures !Contains(ChannelName(c), HeaderTag(h))
  {
    var s := ChannelName(c);
    PairValueLacks(c.pair);
    HeaderValueLacks(c.header);
    HeaderTagHas(h);
    var x := match h
             case BoardSnapshot => 'p'
             case Board => 'b'
             case _ => 'k';
    assert x !in s;
    NotContainedByChar(s, HeaderTag(h), x);
  }

  /** Every channel name parses back to its own header and pair: a snapshot
      channel is never read as a board channel, nor the reverse. */
  lemma ChannelNameRoundTrip(c: ListenChannel)
    ensures ChannelOf(ChannelName(c)) == Some((c.header, c.pair))
  {
    var s := ChannelName(c);
    AcceptsOwnName(c);
    PairOfValue(c.pair);
    forall g | HeaderIndex(g) < HeaderIndex(c.header) ensures !Accepts(g, s) {
      EarlierTagAbsent(c, g);
    }
    ChannelOfAt(s, c.header);
  }

  /** Only the two pair values parse as a pair. */
  lemma PairOfOther(s: string)
    requires s != PairValue(BtcJpy) && s != PairValue(FxBtcJpy)
    ensures PairOf(s).None?
  {
    forall i | 0 <= i < |TradePairs| ensures PairValue(TradePairs[i]) != s {
      assert TradePairs[i] == BtcJpy || TradePairs[i] == FxBtcJpy;
    }
  }

  /** A snapshot channel is the board tag followed by `snapshot_` and the
      pair; that remainder has no `l` and is longer than any pair value. */
  lemma SnapshotNameParts(p: TradePair)
    ensures ChannelName(ListenChannel(BoardSnapshot, p)) == HeaderTag(Board) + ("snapshot_" + PairValue(p))
    ensures 'l' !in "snapshot_" + PairValue(p) && 'l' in HeaderTag(Board)
    ensures "snapshot_" + PairValue(p) != PairValue(BtcJpy)
    ensures "snapshot_" + PairValue(p) != PairValue(FxBtcJpy)
  {
    var v := PairValue(p);
    SnapshotValueSplit();
    assert HeaderValue(BoardSnapshot) + "_" + v == HeaderTag(Board) + ("snapshot" + "_" + v);
    assert "snapshot" + "_" == "snapshot_";
    assert |"snapshot_" + v| > |PairValue(FxBtcJpy)| > |PairValue(BtcJpy)|;
  }

  /** The snapshot header is the board tag followed by `snapshot`. */
  lemma SnapshotValueSplit()
    ensures HeaderValue(BoardSnapshot) == HeaderTag(Board) + "snapshot"
  {
  }

  /** The case the pair check exists for: `lightning_board_` occurs in every
      snapshot channel, but what is left after removing it is not a pair. */
  lemma BoardHeaderRejectsSnapshot(p: TradePair)
    ensures Contains(ChannelName(ListenChannel(BoardSnapshot, p)), HeaderTag(Board))
    ensures RemoveAll(ChannelName(ListenChannel(BoardSnapshot, p)), HeaderTag(Board))
            == "snapshot_" + PairValue(p)
    ensures !Accepts(Board, ChannelName(ListenChannel(BoardSnapshot, p)))
  {
    var tag := HeaderTag(Board);
    var rest := "snapshot_" + PairValue(p);
    SnapshotNameParts(p);
    assert (tag + rest)[..|tag|] == tag;
    RemoveAllLeading(tag, rest);
    NotContainedByChar(rest, tag, 'l');
    RemoveAllAbsent(rest, tag);
    PairOfOther(rest);
  }

  /** The header at position `i` of the iteration order, when it accepts
      and every header before it rejects, is the one `__parse_channel`
      reports. */
  lemma ChannelOfAtIndex(channel: string, i: nat)
    requires i < |InfoChannels| && Accepts(InfoChannels[i], channel)
    requires forall j :: 0 <= j < i ==> !Accepts(InfoChannels[j], channel)
    ensures ChannelOf(channel) ==
              Some((InfoChannels[i], PairOf(RemoveAll(channel, HeaderTag(InfoChannels[i]))).value))
  {
    var k := FirstAccepting(InfoChannels, channel);
    assert !(k < i) && !(i < k);
  }

  /** When every header rejects the channel, `__parse_channel` reports
      nothing. */
  lemma ChannelOfNone(channel: string)
    requires forall j :: 0 <= j < |InfoChannels| ==> !Accepts(InfoChannels[j], channel)
    ensures ChannelOf(channel).None?
  {
  }

  /** The same, for a header named by its value. */
  lemma ChannelOfAt(channel: string, h: InfoChannel)
    requires Accepts(h, channel)
    requires forall g :: HeaderIndex(g) < HeaderIndex(h) ==> !Accepts(g, channel)
    ensures ChannelOf(channel) == Some((h, PairOf(RemoveAll(channel, HeaderTag(h))).value))
  {
    forall j | 0 <= j < HeaderIndex(h) ensures !Accepts(InfoChannels[j], channel) {
      HeaderAt(j);
    }
    ChannelOfAtIndex(channel, HeaderIndex(h));
  }

  /** A header whose tag has a character the channel lacks rejects it. */
  lemma RejectsWithout(h: InfoChannel, channel: string, c: char)
    requires c in HeaderTag(h) && c !in channel
    ensures !Accepts(h, channel)
  {
    NotContainedByChar(channel, HeaderTag(h), c);
  }

  /** The ticker tag after a pair value is found and removed, leaving the pair. */
  lemma TickerTagAfterPair(p: TradePair)
    ensures Accepts(Ticker, PairValue(p) + HeaderTag(Ticker))
    ensures RemoveAll(PairValue(p) + HeaderTag(Ticker), HeaderTag(Ticker)) == PairValue(p)
  {
    var v := PairValue(p);
    var tag := HeaderTag(Ticker);
    assert tag[0] !in v;
    RemoveAllSkip(v, tag, tag);
    assert tag + [] == tag;
    RemoveAllLeading(tag, []);
    ContainsSuffix(v, tag);
    PairOfValue(p);
  }

  /** Neither board tag occurs in a pair value followed by the ticker tag. */
  lemma TickerTagAfterPairLacks(p: TradePair)
    ensures 'p' !in PairValue(p) + HeaderTag(Ticker)
    ensures 'b' !in PairValue(p) + HeaderTag(Ticker)
  {
    PairValueLacks(p);
    assert 'p' !in HeaderTag(Ticker) && 'b' !in HeaderTag(Ticker);
  }

  /** The header test is containment, not a prefix test: a name with the
      tag after the pair, such as "BTC_JPYlightning_ticker_", is still a
      ticker channel. */
  lemma ContainmentNotPrefix(p: TradePair)
    ensures ChannelOf(PairValue(p) + HeaderTag(Ticker)) == Some((Ticker, p))
  {
    var s := PairValue(p) + HeaderTag(Ticker);
    TickerTagAfterPair(p);
    TickerTagAfterPairLacks(p);
    RejectsWithout(BoardSnapshot, s, 'p');
    RejectsWithout(Board, s, 'b');
    ChannelOfAt(s, Ticker);
    PairOfValue(p);
  }

  /** `__parse_channel`: the header loop with `break`, and inside it the
      pair loop with `break`. */
  method ParseChannel(channel: string) returns (header: Option<InfoChannel>, pair: Option<TradePair>)
    ensures header.Some? <==> pair.Some?
    ensures ChannelOf(channel) == if header.Some? then Some((header.value, pair.value)) else None
  {
    header, pair := None, None;
    var i := 0;
    while i < |InfoChannels|
      invariant 0 <= i <= |InfoChannels|
      invariant forall j :: 0 <= j < i ==> !Accepts(InfoChannels[j], channel)
    {
      var h := InfoChannels[i];
      if Contains(channel, HeaderTag(h)) {
        var rest := RemoveAll(channel, HeaderTag(h));
        var found := Lookup(TradePairs, PairValue, rest);
        if found.Some? {
          ChannelOfAtIndex(channel, i);
          header, pair := Some(h), found;
          return;
        }
      }
      i := i + 1;
    }
    ChannelOfNone(channel);
  }

  // ---------------------------------------------------------------------------
  // Dispatch (`__ws_on_message` and the per-category handlers)
  // ---------------------------------------------------------------------------

  /** The arguments a callback is called with (after the client itself). */
  datatype Call =
    | MessageCall(parsedPair: Option<TradePair>, parsedHeader: Option<InfoChannel>, message: Json)
    | BoardSnapshotCall(pair: TradePair, board: BoardData)
    | BoardCall(pair: TradePair, board: BoardData)
    | TickerCall(pair: TradePair, ticker: TickerData)
    | ExecutionsCall(pair: TradePair, executions: seq<ExecutionData>)
    | CloseCall(args: seq<Json>)

  /** The category callback a header is routed to. */
  function CategorySlot(h: InfoChannel): Slot {
    match h
    case BoardSnapshot => OnMessageBoardSnapshot
    case Board => OnMessageBoard
    case Ticker => OnMessageTicker
    case Executions => OnMessageExecutions
  }

  /** True for the arguments of a category callback. */
  predicate IsCategoryCall(c: Call) {
    c.BoardSnapshotCall? || c.BoardCall? || c.TickerCall? || c.ExecutionsCall?
  }

  /** The trade pair a call carries, if any. */
  function CallPair(c: Call): Option<TradePair> {
    match c
    case MessageCall(p, _, _) => p
    case BoardSnapshotCall(p, _) => Some(p)
    case BoardCall(p, _) => Some(p)
    case TickerCall(p, _) => Some(p)
    case ExecutionsCall(p, _) => Some(p)
    case CloseCall(_) => None
  }

  /** The category callback's arguments for a parsed channel, if its record
      decodes. */
  function CategoryCall(h: InfoChannel, p: TradePair, message: Json): (r: Option<Call>)
    ensures r.Some? ==> IsCategoryCall(r.value) && CallPair(r.value) == Some(p)
  {
    match h
    case BoardSnapshot =>
      (match DecodeBoard(message) case Some(d) => Some(BoardSnapshotCall(p, d)) case None => None)
    case Board =>
      (match DecodeBoard(message) case Some(d) => Some(BoardCall(p, d)) case None => None)
    case Ticker =>
      (match DecodeTicker(message) case Some(d) => Some(TickerCall(p, d)) case None => None)
    case Executions =>
      (match ExecutionsOf(message) case Some(ds) => Some(ExecutionsCall(p, ds)) case None => None)
  }

  /** What happens after the generic callback for a data notification. */
  function CategoryEvents(handlers: set<Slot>, parsed: Option<(InfoChannel, TradePair)>,
                          message: Json, raising: set<Slot>): seq<Event<Call>>
  {
    match parsed
    case None => []
    case Some((h, p)) =>
      match CategoryCall(h, p, message)
      case None => []
      case Some(call) => Invoke(handlers, CategorySlot(h), call, raising)
  }

  /** The generic callback's arguments for a notification:
      `(pair, header, message)`, both `None` for an unknown channel. */
  function GenericCall(channel: string, message: Json): Call {
    match ChannelOf(channel)
    case None => MessageCall(None, None, message)
    case Some((h, p)) => MessageCall(Some(p), Some(h), message)
  }

  /** Everything `__ws_on_message` does for one incoming frame. */
  function FrameEvents(handlers: set<Slot>, frame: Json, raising: set<Slot>): (r: seq<Event<Call>>)
    ensures !EnvelopeOf(frame).Notification? ==> r == []
  {
    match EnvelopeOf(frame)
    case Notification(channel, message) =>
      Invoke(handlers, OnMessage, GenericCall(channel, message), raising) +
      CategoryEvents(handlers, ChannelOf(channel), message, raising)
    case _ => []
  }

  /** A notification's events: the generic callback's, then the category
      callback's for the parsed channel. */
  lemma NotificationEvents(handlers: set<Slot>, frame: Json, raising: set<Slot>)
    requires EnvelopeOf(frame).Notification?
    ensures var e := EnvelopeOf(frame);
            FrameEvents(handlers, frame, raising) ==
              Invoke(handlers, OnMessage, GenericCall(e.channel, e.message), raising) +
              CategoryEvents(handlers, ChannelOf(e.channel), e.message, raising)
  {
  }

  /** The generic callback comes first, and gets the parsed pair and header. */
  lemma GenericFirst(handlers: set<Slot>, channel: string, message: Json, raising: set<Slot>)
    requires OnMessage in handlers
    ensures var r := FrameEvents(handlers, NotificationFrame(channel, message), raising);
            |r| > 0 && r[0] == Invoked(GenericCall(channel, message))
  {
    NotificationRoundTrip(channel, message);
  }

  /** The category callback called for a parsed channel, if registered and
      the payload decodes: at most one, and none for an unknown channel. */
  function CategoryCalls(handlers: set<Slot>, parsed: Option<(InfoChannel, TradePair)>, message: Json): (r: seq<Call>)
    ensures |r| <= 1
    ensures parsed.None? ==> r == []
    ensures r != [] ==> IsCategoryCall(r[0]) && CallPair(r[0]) == Some(parsed.value.1)
  {
    match parsed
    case None => []
    case Some((h, p)) =>
      match CategoryCall(h, p, message)
      case None => []
      case Some(call) => if CategorySlot(h) in handlers then [call] else []
  }

  /** The callbacks called for one frame, independently of which of them
      raise: for a data notification the generic one (if registered), then
      at most one category callback; nothing for any other frame. */
  function ExpectedCalls(handlers: set<Slot>, envelope: Envelope): seq<Call> {
    match envelope
    case Notification(channel, message) =>
      (if OnMessage in handlers then [GenericCall(channel, message)] else []) +
      CategoryCalls(handlers, ChannelOf(channel), message)
    case _ => []
  }

  lemma CategoryEventsCalls(handlers: set<Slot>, parsed: Option<(InfoChannel, TradePair)>, message: Json, raising: set<Slot>)
    ensures Calls(CategoryEvents(handlers, parsed, message, raising)) == CategoryCalls(handlers, parsed, message)
  {
    match parsed {
      case None =>
      case Some((h, p)) =>
        match CategoryCall(h, p, message) {
          case None =>
          case Some(call) => InvokeCallsIgnoreRaising(handlers, CategorySlot(h), call, raising);
        }
    }
  }

  /** The callbacks called for a frame are exactly the expected ones,
      whichever callbacks raise: an exception in the generic callback does
      not keep the category callback from being called. */
  lemma FrameCalls(handlers: set<Slot>, frame: Json, raising: set<Slot>)
    ensures Calls(FrameEvents(handlers, frame, raising)) == ExpectedCalls(handlers, EnvelopeOf(frame))
  {
    match EnvelopeOf(frame) {
      case Notification(channel, message) =>
        var generic := Invoke(handlers, OnMessage, GenericCall(channel, message), raising);
        var category := CategoryEvents(handlers, ChannelOf(channel), message, raising);
        CallsAppend(generic, category);
        InvokeCallsIgnoreRaising(handlers, OnMessage, GenericCall(channel, message), raising);
        CategoryEventsCalls(handlers, ChannelOf(channel), message, raising);
      case _ =>
    }
  }

  /** The calls made do not depend on which callbacks raise. */
  lemma FailureIsolation(handlers: set<Slot>, frame: Json, raising: set<Slot>)
    ensures Calls(FrameEvents(handlers, frame, raising)) == Calls(FrameEvents(handlers, frame, {}))
  {
    FrameCalls(handlers, frame, raising);
    FrameCalls(handlers, frame, {});
  }

  /** A notification on a channel no header accepts reaches only the
      generic callback, with `None` for both pair and header. */
  lemma UnknownChannelCalls(handlers: set<Slot>, channel: string, message: Json, raising: set<Slot>)
    requires forall h :: !Accepts(h, channel)
    ensures Calls(FrameEvents(handlers, NotificationFrame(channel, message), raising)) ==
            if OnMessage in handlers then [MessageCall(None, None, message)] else []
  {
    ChannelOfComplete(channel);
    NotificationRoundTrip(channel, message);
    FrameCalls(handlers, NotificationFrame(channel, message), raising);
  }

  /** An executions notification of N well-formed entries on a known
      channel produces one executions call holding N records, in order. */
  lemma ExecutionsBatch(handlers: set<Slot>, c: ListenChannel, ds: seq<ExecutionData>, raising: set<Slot>)
    requires c.header == Executions && OnMessageExecutions in handlers && OnMessage !in handlers
    ensures var items := seq(|ds|, i requires 0 <= i < |ds| => ExecutionJson(ds[i]));
            Calls(FrameEvents(handlers, NotificationFrame(ChannelName(c), JArr(items)), raising))
              == [ExecutionsCall(c.pair, ds)]
  {
    var items := seq(|ds|, i requires 0 <= i < |ds| => ExecutionJson(ds[i]));
    ChannelNameRoundTrip(c);
    ExecutionsRoundTrip(ds);
    NotificationRoundTrip(ChannelName(c), JArr(items));
    FrameCalls(handlers, NotificationFrame(ChannelName(c), JArr(items)), raising);
  }

  /** A ticker frame on a listen channel gives one ticker callback with the
      pair of the channel and every field of the payload. */
  lemma TickerFrame(handlers: set<Slot>, c: ListenChannel, d: TickerData, raising: set<Slot>)
    requires c.header == Ticker && OnMessageTicker in handlers && OnMessage !in handlers
    ensures Calls(FrameEvents(handlers, NotificationFrame(ChannelName(c), TickerJson(d)), raising))
              == [TickerCall(c.pair, d)]
  {
    ChannelNameRoundTrip(c);
    TickerRoundTrip(d);
    NotificationRoundTrip(ChannelName(c), TickerJson(d));
    FrameCalls(handlers, NotificationFrame(ChannelName(c), TickerJson(d)), raising);
  }

  // ---------------------------------------------------------------------------
  // The client object
  // ---------------------------------------------------------------------------

  /** `RealtimeAPI`. `handlers` are the callbacks given (not `None`); `ws` is
      the transport handle (`__ws`), a number standing for the
      `WebSocketApp` object; `log` is everything the client has done. */
  class RealtimeApi {
    const handlers: set<Slot>
    var listenChannels: seq<string>
    var ws: Option<nat>
    var created: nat
    var log: seq<Event<Call>>

    /** `__init__`: one `listen_channels` entry per given channel, in order. */
    constructor (channelList: seq<ListenChannel>, handlers: set<Slot>)
      ensures this.handlers == handlers
      ensures listenChannels == ChannelNames(channelList)
      ensures ws == None && created == 0 && log == []
    {
      var names := [];
      var i := 0;
      while i < |channelList|
        invariant 0 <= i <= |channelList|
        invariant names == ChannelNames(channelList[..i])
      {
        names := names + [ChannelName(channelList[i])];
        i := i + 1;
      }
      assert channelList[..i] == channelList;
      this.handlers := handlers;
      listenChannels := names;
      ws := None;
      created := 0;
      log := [];
    }

    /** `__ws_on_open`: one subscribe frame per listen channel, in order;
        if `ws.send` raises at index `failAt`, the loop ends there. */
    method OnOpen(failAt: Option<nat>)
      modifies this`log
      ensures log == old(log) + Subscriptions(listenChannels[..SentCount(|listenChannels|, failAt)])
    {
      var n := SentCount(|listenChannels|, failAt);
      var i := 0;
      while i < n
        invariant 0 <= i <= n
        invariant log == old(log) + Subscriptions(listenChannels[..i])
      {
        log := log + [Sent(SubscribeFrame(listenChannels[i]))];
        i := i + 1;
        assert Subscriptions<Call>(listenChannels[..i]) ==
               Subscriptions<Call>(listenChannels[..i - 1]) + [Sent(SubscribeFrame(listenChannels[i - 1]))];
      }
    }

    /** `__callback`. */
    method Callback(slot: Slot, call: Call, raising: set<Slot>)
      modifies this`log
      ensures log == old(log) + Invoke(handlers, slot, call, raising)
    {
      if slot in handlers {
        log := log + [Invoked(call)];
        if slot in raising {
          log := log + [Raised(slot)];
        }
      }
    }

    /** `__ws_on_message_board_snapshot`: a payload that does not decode
        raises before the callback is reached. */
    method OnMessageBoardSnapshot(pair: TradePair, message: Json, raising: set<Slot>)
      modifies this`log
      ensures log == old(log) + CategoryEvents(handlers, Some((BoardSnapshot, pair)), message, raising)
    {
      var data := DecodeBoard(message);
      if data.Some? {
        Callback(Stream.OnMessageBoardSnapshot, BoardSnapshotCall(pair, data.value), raising);
      }
    }

    /** `__ws_on_message_board`. */
    method OnMessageBoard(pair: TradePair, message: Json, raising: set<Slot>)
      modifies this`log
      ensures log == old(log) + CategoryEvents(handlers, Some((Board, pair)), message, raising)
    {
      var data := DecodeBoard(message);
      if data.Some? {
        Callback(Stream.OnMessageBoard, BoardCall(pair, data.value), raising);
      }
    }

    /** `__ws_on_message_ticker`. */
    method OnMessageTicker(pair: TradePair, message: Json, raising: set<Slot>)
      modifies this`log
      ensures log == old(log) + CategoryEvents(handlers, Some((Ticker, pair)), message, raising)
    {
      var data := DecodeTicker(message);
      if data.Some? {
        Callback(Stream.OnMessageTicker, TickerCall(pair, data.value), raising);
      }
    }

    /** `__ws_on_message_executions`: the records are collected in a list,
        in payload order, and handed over in one call. */
    method OnMessageExecutions(pair: TradePair, message: Json, raising: set<Slot>)
      modifies this`log
      ensures log == old(log) + CategoryEvents(handlers, Some((Executions, pair)), message, raising)
    {
      var dataList := DecodeExecutions(message);
      if dataList.Some? {
        Callback(Stream.OnMessageExecutions, ExecutionsCall(pair, dataList.value), raising);
      }
    }

    /** `__ws_on_message`. */
    method OnMessage(frame: Json, raising: set<Slot>)
      modifies this`log
      ensures log == old(log) + FrameEvents(handlers, frame, raising)
    {
      var envelope := EnvelopeOf(frame);
      if !envelope.Notification? {
        return;
      }
      var header, pair := ParseChannel(envelope.channel);
      NotificationEvents(handlers, frame, raising);
      assert GenericCall(envelope.channel, envelope.message) == MessageCall(pair, header, envelope.message);
      Callback(Stream.OnMessage, MessageCall(pair, header, envelope.message), raising);
      Dispatch(header, pair, envelope.message, raising);
    }

    /** The "special callback" chain of `__ws_on_message`: the handler of the
        parsed header, if any. */
    method Dispatch(header: Option<InfoChannel>, pair: Option<TradePair>, message: Json, raising: set<Slot>)
      requires header.Some? <==> pair.Some?
      modifies this`log
      ensures log == old(log) + CategoryEvents(handlers, if header.Some? then Some((header.value, pair.value)) else None,
                                               message, raising)
    {
      if header == Some(BoardSnapshot) {
        OnMessageBoardSnapshot(pair.value, message, raising);
      } else if header == Some(Board) {
        OnMessageBoard(pair.value, message, raising);
      } else if header == Some(Ticker) {
        OnMessageTicker(pair.value, message, raising);
      } else if header == Some(Executions) {
        OnMessageExecutions(pair.value, message, raising);
      }
    }

    /** `__ws_on_close`: only the close callback; the handle is kept. */
    method OnClose(args: seq<Json>, raising: set<Slot>)
      modifies this`log
      ensures log == old(log) + Invoke(handlers, Stream.OnClose, CloseCall(args), raising)
    {
      Callback(Stream.OnClose, CloseCall(args), raising);
    }

    /** `start`: an existing handle is stopped first; then a new handle is
        created. The blocking event loop is not part of the model: the
        transport's events are the `On...` methods. */
    method Start()
      modifies this`ws, this`created, this`log
      ensures ws == Some(old(created)) && created == old(created) + 1
      ensures log == old(log) + (if old(ws).Some? then [TransportClosed(old(ws).value)] else [])
                              + [TransportOpened(old(created))]
    {
      if ws.Some? {
        var _ := Stop();
      }
      ws := Some(created);
      log := log + [TransportOpened(created)];
      created := created + 1;
    }

    /** `stop`: closes the handle and forgets it. With no handle, `close` is
        looked up on `None` and Python raises: `ok` is false and nothing
        changes. */
    method Stop() returns (ok: bool)
      modifies this`ws, this`log
      ensures ok == old(ws).Some?
      ensures ok ==> ws.None? && log == old(log) + [TransportClosed(old(ws).value)]
      ensures !ok ==> ws == old(ws) && log == old(log)
    {
      if ws.None? {
        return false;
      }
      log := log + [TransportClosed(ws.value)];
      ws := None;
      return true;
    }
  }

  /** Every channel the constructor registers parses back to the header and
      pair it was built from. */
  lemma ListenChannelsParse(cs: seq<ListenChannel>)
    ensures forall i :: 0 <= i < |cs| ==> ChannelOf(ChannelNames(cs)[i]) == Some((cs[i].header, cs[i].pair))
  {
    forall i | 0 <= i < |cs| ensures ChannelOf(ChannelNames(cs)[i]) == Some((cs[i].header, cs[i].pair)) {
      ChannelNameRoundTrip(cs[i]);
    }
  }

  /** A channel name without a `g` holds none of the headers (they all
      begin with "lightning"), so it is not parsed: "unknown_channel_xyz"
      is one. */
  lemma UnknownWithoutG(channel: string)
    requires 'g' !in channel
    ensures ChannelOf(channel).None?
  {
    forall h ensures !Accepts(h, channel) {
      HeaderTagHas(h);
      NotContainedByChar(channel, HeaderTag(h), 'g');
    }
    ChannelOfComplete(channel);
  }

  /** A client of the class: subscribe to a snapshot and a ticker channel,
      open, and receive one ticker notification. */
  method EndToEnd(d: TickerData)
  {
    var snapshot := ListenChannel(BoardSnapshot, BtcJpy);
    var ticker := ListenChannel(Ticker, BtcJpy);
    var api := new RealtimeApi([snapshot, ticker], {Stream.OnMessageTicker});
    api.Start();
    ghost var names := api.listenChannels;
    assert names == [ChannelName(snapshot), ChannelName(ticker)];
    api.OnOpen(None);
    assert names[..SentCount(|names|, None)] == names;
    assert api.log[1..] == Subscriptions(names);
    SubscriptionsExact<Call>(names);
    assert SentChannels(api.log[1..]) == [ChannelName(snapshot), ChannelName(ticker)];
    var before := |api.log|;
    var frame := NotificationFrame(ChannelName(ticker), TickerJson(d));
    api.OnMessage(frame, {});
    assert api.log[before..] == FrameEvents(api.handlers, frame, {});
    TickerFrame(api.handlers, ticker, d, {});
    assert Calls(api.log[before..]) == [TickerCall(BtcJpy, d)];
  }
}
