# sabitflyer streaming dispatcher and broker classifiers, in Dafny

This project models the logic at the core of `sabitflyer`, a Python client for the
bitFlyer Lightning exchange.

- **`RealtimeAPI`** (module `Realtime`, class `RealtimeApi`) is the streaming client.
  - It turns a list of listen-channel enums into channel names.
  - On open it sends one JSON-RPC `subscribe` frame per name.
  - Each `channelMessage` notification's channel name is split into an information header and a trade pair. The split uses substring containment, remove-every-occurrence and a pair check.
  - It calls the generic callback, then at most one category callback (board snapshot, board, ticker, executions).
  - An absent callback is skipped and one that raises is isolated.
  - The websocket handle is a nullable field that `start` and `stop` manage.
- **`stream_api`** (module `StreamApi`, class `StreamClient`) is the older variant.
  - Channel names are prefix plus pair.
  - Dispatch is an `if`/`elif` chain of substring tests, with no pair check.
  - The generic callback receives the raw channel name.
- **Shared modules.**
  - `Payloads` holds the board, ticker and execution records both clients build from a payload.
  - `Stream` holds the callback slots, the event log (callback invocations, raised exceptions, subscribe frames, transport closes) and the JSON-RPC envelope.
- **Broker classifiers** (module `Broker` for `broker.py`, module `BrokerApi` for `broker_api.py`):
  - the order-state classification;
  - side and order-type lookup;
  - health and state lookup with defaults;
  - the derived amounts;
  - the empty-result rules of `order_check_detail` and `so_check_details`;
  - the special-order leg builders;
  - the `so_cancel` id precedence.
- **Margin aggregation** (module `Margin`): `get_margin_trading` and `get_assets` of `brokerfx.py` and `broker_mt_api.py`.
  - The two files hold the same code over the same enumerations, so they are modelled once.
  - `get_assets` folds collateral and positions into a name-to-asset dictionary.
- **`error_parser`** (module `Common`) turns a response into a returned value or a raised failure.

How the modelling works:

- State the source changes in place is a class with `modifies` clauses: the listen-channel list, the websocket handle and the event log.
- Loops stay loops: the channel-list append, `__parse_channel`'s header loop, the enum lookups with early exit, the executions append loop and the `get_assets` loops.
- Each loop is proved against a function that states what it computes.
- JSON text, the websocket transport and the HTTP clients are represented abstractly:
  - a JSON value is a datatype;
  - a frame received is a method call;
  - a callback that raises is a parameter (`raising`, the set of slots whose handler raises);
  - an HTTP result is an `Option` (`None` where the request raised).

Where the documented behaviour and the code differ, the model follows the code:

- **Channel matching.** `__parse_channel` and the legacy dispatcher test substring containment, not prefixes. `parse_channel` removes every occurrence of the header. So `"BTC_JPYlightning_ticker_"` parses as a ticker channel for `BTC_JPY` (`Realtime.ContainmentNotPrefix`).
- **`stop` on a null handle raises** (`None.close()`); it is not a no-op. The model returns `ok = false` and changes nothing.
- **`on_close` does not clear the handle.** Only `stop` does.
- **A failed `send` aborts the subscribe loop.** Channels after it are never subscribed.
- **An unknown channel** in the realtime client produces exactly one generic call, with pair and header `None`.
- **An executions payload of `{}` or `""`** iterates as an empty list, so the callback receives `[]`.
- **A `null` JSON body** in `error_parser` counts as no body: `res_json is not None` fails for it.
- **`cvt_status` appears twice.** `broker_api.py:324-338` has the same code and the same enumeration values as `broker.py:276-290`, so `Broker.CvtStatusHealth` and `Broker.CvtStatusState` model both.

## Model

| member | source | states |
|---|---|---|
| Realtime.ChannelNames | sabitflyer/realtime.py:101-104 | one listen name per requested channel, in order, duplicates kept |
| Realtime.ListenChannelTable | sabitflyer/realtime.py:34-46 | each of the eight `ListenChannel` values is the header value, `_`, then the pair value |
| Realtime.HeaderTag | sabitflyer/realtime.py:118 | the tag tested (`header.value + '_'`) is never empty, so the replace is well defined |
| Realtime.HeaderIndex | sabitflyer/realtime.py:27-32 | every `InfoChannel` has its declaration position in the iteration order |
| Realtime.FirstAccepting | sabitflyer/realtime.py:117-128 | the header loop stops at the first header that is contained and leaves a known pair, and every earlier header fails that test |
| Realtime.ChannelOfSound | sabitflyer/realtime.py:113-129 | a parsed header's tag occurs in the channel, removing every occurrence leaves exactly the parsed pair's value, and no earlier header accepts |
| Realtime.ChannelOfComplete | sabitflyer/realtime.py:113-129 | the result is `(None, None)` exactly when no header accepts the channel |
| Realtime.NotContainedByChar | sabitflyer/realtime.py:118 | a tag with a character the channel lacks is not contained in it |
| Realtime.PairOfValue | sabitflyer/realtime.py:121-124 | the pair loop recognises each `TradePair` value as that pair |
| Realtime.PairOfOther | sabitflyer/realtime.py:121-125 | any other remainder is not a pair, so the header is rejected |
| Realtime.AcceptsOwnName | sabitflyer/realtime.py:118-125 | a listen name is accepted by its own header, and removing the tag leaves its pair |
| Realtime.EarlierTagAbsent | sabitflyer/realtime.py:117-118 | the tag of a header declared earlier does not occur in a later header's listen name |
| Realtime.ChannelNameRoundTrip | sabitflyer/realtime.py:113-129 | parsing any of the eight listen names gives back its header and pair (snapshot names parse as snapshot) |
| Realtime.BoardHeaderRejectsSnapshot | sabitflyer/realtime.py:125 | the board tag does occur in a snapshot name, but leaves `snapshot_<pair>`, which the pair check rejects |
| Realtime.ContainmentNotPrefix | sabitflyer/realtime.py:118-119 | a name with the tag after the pair (`BTC_JPYlightning_ticker_`) still parses, because the test is containment |
| Realtime.UnknownWithoutG | sabitflyer/realtime.py:113-129 | a channel without a `g` (every header contains `lightning`) parses to `(None, None)` |
| Realtime.SnapshotNameParts | sabitflyer/realtime.py:37-43 | a snapshot name is the board tag then `snapshot_` and the pair, a remainder that is no pair value |
| Realtime.ChannelOfAtIndex | sabitflyer/realtime.py:117-129 | the first accepting header in iteration order is the one reported, with its remainder as the pair |
| Realtime.ChannelOfNone | sabitflyer/realtime.py:117-129 | when every header rejects the channel the result is `(None, None)` |
| Realtime.ChannelOfAt | sabitflyer/realtime.py:117-129 | a header that accepts, with every earlier header rejecting, is the one reported |
| Realtime.RejectsWithout | sabitflyer/realtime.py:118 | a header whose tag has a character the channel lacks is not accepted |
| Realtime.TickerTagAfterPair | sabitflyer/realtime.py:118-125 | the ticker tag after a pair value is contained, and removing it leaves that pair |
| Realtime.ListenChannelsParse | sabitflyer/realtime.py:101-104 | every entry of `listen_channels` parses back to the channel it came from |
| Realtime.ParseChannel | sabitflyer/realtime.py:113-129 | the loop with `break` returns a header iff it returns a pair, and agrees with the first-accepting-header specification |
| Realtime.CategoryCall | sabitflyer/realtime.py:157-174 | a handler call is a category call (never generic or close) and carries the parsed pair |
| Realtime.FrameEvents | sabitflyer/realtime.py:133-134 | a frame that is not a `channelMessage` notification produces no event |
| Realtime.NotificationEvents | sabitflyer/realtime.py:131-155 | a data frame's events are the generic call with the parsed pair and header, then the parsed category's events |
| Realtime.GenericFirst | sabitflyer/realtime.py:142-143 | with a generic callback, the first event of a data frame is the generic call with pair, header and message |
| Realtime.CategoryCalls | sabitflyer/realtime.py:145-155 | at most one category call per frame, none for an unparsed channel, and its pair is the parsed pair |
| Realtime.CategoryEventsCalls | sabitflyer/realtime.py:179-185 | the category callbacks made do not depend on which handlers raise |
| Realtime.FrameCalls | sabitflyer/realtime.py:131-155 | the callbacks of one frame are the generic call (if present) followed by the selected category call (if present and decodable) |
| Realtime.FailureIsolation | sabitflyer/realtime.py:179-185 | a raising callback changes no other callback made for the same frame |
| Realtime.UnknownChannelCalls | sabitflyer/realtime.py:143-155 | an unparsed channel yields only the generic call, with `(None, None, message)` |
| Realtime.ExecutionsBatch | sabitflyer/realtime.py:169-174 | an executions frame of N entries gives one executions callback with the N records in payload order |
| Realtime.TickerFrame | sabitflyer/realtime.py:140-167 | a ticker notification on a listen channel reaches only the ticker callback, with the channel's pair and the payload's record |
| Realtime.RealtimeApi.constructor | sabitflyer/realtime.py:84-107 | the append loop stores the value of each channel, in order; no handle; nothing logged |
| Realtime.RealtimeApi.OnOpen | sabitflyer/realtime.py:109-111 | one subscribe frame per listen channel, in order, up to the first failing send |
| Realtime.RealtimeApi.Callback | sabitflyer/realtime.py:179-185 | an absent callback logs nothing; a present one is invoked, and a raise is logged and swallowed |
| Realtime.RealtimeApi.OnMessageBoardSnapshot | sabitflyer/realtime.py:157-159 | the snapshot handler's events are the board record's callback |
| Realtime.RealtimeApi.OnMessageBoard | sabitflyer/realtime.py:161-163 | the board handler's events are the board record's callback |
| Realtime.RealtimeApi.OnMessageTicker | sabitflyer/realtime.py:165-167 | the ticker handler's events are the ticker record's callback |
| Realtime.RealtimeApi.OnMessageExecutions | sabitflyer/realtime.py:169-174 | the executions handler's events are one callback with the decoded list |
| Realtime.RealtimeApi.OnMessage | sabitflyer/realtime.py:131-155 | the log grows by exactly the frame's events |
| Realtime.RealtimeApi.Dispatch | sabitflyer/realtime.py:145-155 | the header chain calls the handler of the parsed header with the parsed pair, and nothing for an unparsed channel |
| Realtime.RealtimeApi.OnClose | sabitflyer/realtime.py:176-177 | the close callback gets the close arguments; the handle is kept |
| Realtime.RealtimeApi.Start | sabitflyer/realtime.py:187-196 | an existing handle is closed first; a fresh handle is installed |
| Realtime.RealtimeApi.Stop | sabitflyer/realtime.py:198-201 | with a handle it is closed and cleared; with none the call fails and nothing changes |
| Payloads.BoardRoundTrip | sabitflyer/realtime.py:48-53 | `BoardData` reads back every field of a board payload |
| Payloads.TickerRoundTrip | sabitflyer/realtime.py:55-69 | `TickerData` reads back every field of a ticker payload |
| Payloads.ExecutionRoundTrip | sabitflyer/realtime.py:71-82 | `ExecutionData` reads back every field, `id` as the order id |
| Payloads.BoardDecodeFaithful | sabitflyer/realtime.py:48-53 | a decoded board record holds exactly the payload's three keys |
| Payloads.DecodeAll | sabitflyer/realtime.py:170-173 | the list decodes iff every entry does, with one record per entry in order |
| Payloads.ExecutionsRoundTrip | sabitflyer/realtime.py:169-174 | N well-formed entries decode to the same N records in order |
| Payloads.DecodeExecutions | sabitflyer/realtime.py:170-173 | the append loop computes the record list (or none, or `[]` for an empty dict or string) |
| Payloads.DecodeAllFails | sabitflyer/realtime.py:171-172 | one malformed entry makes the whole batch fail |
| Stream.Invoke | sabitflyer/realtime.py:179-185 | an absent callback makes no event; a present one is invoked once, and logs the raise when it raises |
| Stream.InvokeCallsIgnoreRaising | sabitflyer/realtime.py:179-185 | whether a callback raises does not change which calls are made |
| Stream.CallsAppend | sabitflyer/realtime.py:142-155 | the calls of consecutive events are the concatenation of their calls |
| Stream.SubscribeRoundTrip | sabitflyer/realtime.py:111 | the subscribe frame carries exactly the channel name |
| Stream.Subscriptions | sabitflyer/realtime.py:110-111 | one frame per channel |
| Stream.SubscriptionsExact | sabitflyer/realtime.py:110-111 | the channels subscribed are exactly the listen channels, in order |
| Stream.SentCount | sabitflyer/realtime.py:110-111 | every channel is sent unless a send fails, and then only those before it |
| Stream.EnvelopeOf | sabitflyer/realtime.py:132-134 | a frame is a notification only when its method is `channelMessage` |
| Stream.NotificationRoundTrip | sabitflyer/realtime.py:137-139 | a notification frame's channel and message are read back unchanged |
| StreamApi.ChannelPrefixIsHeaderTag | sabitflyer/stream_api.py:23-27 | each legacy prefix is the realtime header value followed by `_` |
| StreamApi.ListenNameIsChannelName | sabitflyer/stream_api.py:79-82 | prefix plus pair is the same name as the realtime listen channel |
| StreamApi.ListenNames | sabitflyer/stream_api.py:79-82 | one listen name per requested channel, in order |
| StreamApi.FirstContained | sabitflyer/stream_api.py:105-114 | the chain takes the first prefix contained in the channel, and none earlier is contained |
| StreamApi.RouteSpec | sabitflyer/stream_api.py:105-114 | no handler iff no prefix is contained; otherwise the chosen prefix is contained and no earlier one is |
| StreamApi.RouteChain | sabitflyer/stream_api.py:105-114 | the route equals the written `if`/`elif` chain |
| StreamApi.RouteListenName | sabitflyer/stream_api.py:105-114 | each listen name reaches its own handler |
| StreamApi.SnapshotBeforeBoard | sabitflyer/stream_api.py:105-108 | a snapshot name contains the board prefix too, reaches the snapshot handler, and would reach the board handler with the two tests swapped |
| StreamApi.NoPairCheck | sabitflyer/stream_api.py:105-114 | a ticker prefix followed by any non-pair is still routed to the ticker handler, where the realtime parser rejects it |
| StreamApi.TickerPrefixRoute | sabitflyer/stream_api.py:105-110 | the ticker prefix followed by text without `p` or `b` reaches the ticker handler |
| StreamApi.TickerPrefixUnparsed | sabitflyer/stream_api.py:105-110 | the same name, when the rest is no pair, is rejected by the realtime parser |
| StreamApi.RoutesAgree | sabitflyer/stream_api.py:105-114 | on listen names the legacy route and the realtime parser agree |
| StreamApi.HandlerCall | sabitflyer/stream_api.py:116-133 | a handler builds a category call, never a generic or close call |
| StreamApi.FrameEvents | sabitflyer/stream_api.py:93-94 | a non-`channelMessage` frame produces no event |
| StreamApi.ExpectedCalls | sabitflyer/stream_api.py:101-114 | at most two calls, the generic call with the raw channel first |
| StreamApi.FrameCalls | sabitflyer/stream_api.py:91-144 | the callbacks of one frame are the generic call then the routed handler's call, whichever callbacks raise |
| StreamApi.UnroutedChannelCalls | sabitflyer/stream_api.py:113-114 | a channel with none of the four prefixes yields only the generic call |
| StreamApi.StreamClient.constructor | sabitflyer/stream_api.py:63-85 | the append loop stores prefix plus pair per channel, in order; no handle |
| StreamApi.StreamClient.OnOpen | sabitflyer/stream_api.py:87-89 | one subscribe frame per listen channel, in order, up to the first failing send |
| StreamApi.StreamClient.Callback | sabitflyer/stream_api.py:138-144 | absent callbacks are skipped, raises are logged and swallowed |
| StreamApi.StreamClient.OnMessageBoardSnapshot | sabitflyer/stream_api.py:116-118 | the snapshot handler's events are the board record's callback |
| StreamApi.StreamClient.OnMessageBoard | sabitflyer/stream_api.py:120-122 | the board handler's events are the board record's callback |
| StreamApi.StreamClient.OnMessageTicker | sabitflyer/stream_api.py:124-126 | the ticker handler's events are the ticker record's callback |
| StreamApi.StreamClient.OnMessageExecutions | sabitflyer/stream_api.py:128-133 | the executions handler's events are one callback with the decoded list |
| StreamApi.StreamClient.OnMessage | sabitflyer/stream_api.py:91-114 | the log grows by exactly the frame's events, dispatched through the written chain |
| StreamApi.StreamClient.Dispatch | sabitflyer/stream_api.py:104-114 | the `if`/`elif` chain runs the handler of the first prefix contained in the channel, and nothing when none is |
| StreamApi.StreamClient.OnClose | sabitflyer/stream_api.py:135-136 | the close callback gets the close arguments; the handle is kept |
| StreamApi.StreamClient.Start | sabitflyer/stream_api.py:146-154 | an existing handle is closed first; a fresh handle is installed |
| StreamApi.StreamClient.Stop | sabitflyer/stream_api.py:156-158 | with a handle it is closed and cleared; with none the call fails and nothing changes |
| Broker.Str2Side | sabitflyer/broker.py:34-41 | returns the side whose value is the string, and `None` iff there is none |
| Broker.TypeIndex | sabitflyer/broker.py:43-52 | every `OrderType` has its declaration position in the iteration order |
| Broker.Str2Type | sabitflyer/broker.py:54-60 | the loop returns the type whose value is the string, and `None` iff there is none |
| Broker.TypeOf | sabitflyer/broker.py:54-60 | the order type named by a string, if any |
| Broker.AnalyzeState | sabitflyer/broker.py:659-674 | never `UNKNOWN`; `ACTIVE` and `CANCELED` split on executed > 0; `COMPLETED` is filled; anything else is canceled-unfilled |
| Broker.HealthIndex | sabitflyer/broker.py:71-78 | every `HealthStatus` has its declaration position |
| Broker.StateIndex | sabitflyer/broker.py:80-88 | every `StateStatus` has its declaration position |
| Broker.CvtStatusHealth | sabitflyer/broker.py:276-282 | the member with that value, else `STOP` |
| Broker.CvtStatusState | sabitflyer/broker.py:284-290 | the member with that value, else `CLOSED` |
| Broker.LockedAmount | sabitflyer/broker.py:181-186 | defined iff both amounts are, and free + locked = onhand |
| Broker.ExecutedActualAmount | sabitflyer/broker.py:635-640 | defined iff both amounts are, and actual + commission = executed |
| Broker.OrderInfoOf | sabitflyer/broker.py:642-657 | the order info holds the child order's id, pair, classified state, side, type and net executed amount |
| Broker.OrderCheckDetail | sabitflyer/broker.py:206-223 | success iff the request succeeded; an empty list gives an `UNKNOWN` order; otherwise the first child order |
| Broker.SoCheckDetails | sabitflyer/broker.py:469-488 | success iff the request succeeded; an empty list gives `[UNKNOWN]`; otherwise one info per order, in order |
| Broker.SoMkPrmsLimit | sabitflyer/broker.py:490-499 | a limit leg has exactly the keys product code, condition type, side, price and size |
| Broker.SoMkPrmsStop | sabitflyer/broker.py:501-510 | a stop leg has `trigger_price` in place of `price` |
| Broker.LegRoundTrip | sabitflyer/broker.py:490-510 | each leg carries its condition type and its price under the key that condition reads |
| Broker.SoCancel | sabitflyer/broker.py:584-615 | the acceptance id wins over the order id; with neither, no request and `False`; otherwise success iff the request does not raise |
| BrokerApi.ClassifyStatus | sabitflyer/broker_api.py:249-263 | `ACTIVE` is unfilled, `COMPLETED` is filled, every other state is canceled-unfilled, whatever the executed amount |
| BrokerApi.ClassifyIsCollapsedAnalyze | sabitflyer/broker_api.py:33-38 | the classification is the six-way one with the aliased members merged, which loses the partial-fill distinction |
| BrokerApi.RemainingAmount | sabitflyer/broker_api.py:225-229 | defined iff both amounts are, and remaining + executed = size |
| BrokerApi.SideOf | sabitflyer/broker_api.py:242 | `BUY` iff the string is `BUY`, `SELL` otherwise |
| BrokerApi.TypeOf | sabitflyer/broker_api.py:243 | `LIMIT` iff the string is `LIMIT`, `MARKET` otherwise |
| BrokerApi.SideOfAgrees | sabitflyer/broker_api.py:242 | agrees with `str2side` where that finds a side, and is `SELL` where it does not |
| BrokerApi.OrderInfoOf | sabitflyer/broker_api.py:238-263 | the info holds the classified status and remaining = size - executed |
| BrokerApi.OrderCheckDetail | sabitflyer/broker_api.py:231-271 | success iff a non-empty list came back, with the first order's info; otherwise `(False, None)` |
| BrokerApi.EmptyResultDiffers | sabitflyer/broker_api.py:265-267 | on an empty list the two clients disagree: `broker.py` succeeds, `broker_api.py` fails |
| Margin.GetMarginTrading | sabitflyer/brokerfx.py:30-45 | success iff the collateral request succeeded; then `collateral`, `require_collateral`, `keep_rate` and `open_position_pnl` become the customer margin, maintenance margin, margin rate and profit/loss |
| Margin.NameOf | sabitflyer/brokerfx.py:66 | a name exists iff the product code has a `_` |
| Margin.NameOfFields | sabitflyer/brokerfx.py:66 | the name is the second `_`-separated field |
| Margin.NameOfMarginPair | sabitflyer/brokerfx.py:66 | `FX_BTC_JPY` gives `BTC` |
| Margin.Signed | sabitflyer/brokerfx.py:68-70 | a `SELL` position counts minus its size, any other side plus |
| Margin.JpyAsset | sabitflyer/brokerfx.py:53-59 | JPY holds the collateral and locks the required collateral |
| Margin.StartAssets | sabitflyer/brokerfx.py:50-59 | the dictionary starts well formed |
| Margin.AddAmount | sabitflyer/brokerfx.py:72-82 | adding a position touches only its own entry and keeps the dictionary well formed |
| Margin.Accumulate | sabitflyer/brokerfx.py:64-82 | the position loop keeps every entry and keeps the dictionary well formed |
| Margin.FillMissing | sabitflyer/brokerfx.py:85-91 | every asset becomes a key; existing entries are kept; new ones are zero |
| Margin.AccumulateSucceeds | sabitflyer/brokerfx.py:64-82 | the position loop succeeds iff every product code has a `_` |
| Margin.AccumulateKeys | sabitflyer/brokerfx.py:72-82 | a name has an entry after the loop iff it had one before or some position is named after it |
| Margin.AccumulateAmounts | sabitflyer/brokerfx.py:72-82 | an entry's held amount grows by its signed sizes, and its locked amount is unchanged (zero for a new name) |
| Margin.AccumulateTotals | sabitflyer/brokerfx.py:72-82 | a name ends with its start amount plus its signed sizes, held and free alike, so positions lock nothing |
| Margin.AccumulateAppend | sabitflyer/brokerfx.py:62-82 | folding two position lists in turn is folding their concatenation |
| Margin.ContinueStep | sabitflyer/brokerfx.py:62-82 | one pass of the pair loop: a failed request or an unreadable position fails the call |
| Margin.AssetsOfUnfold | sabitflyer/brokerfx.py:47-98 | a successful `get_assets` is the fill-in of the fold of every pair's positions over the JPY entry |
| Margin.FilledAssets | sabitflyer/brokerfx.py:85-91 | after the fill-in BTC and JPY are keys and existing entries are kept |
| Margin.JpyAssetEntry | sabitflyer/brokerfx.py:50-82 | the JPY entry holds collateral plus JPY positions and locks the required collateral |
| Margin.OtherAssetEntry | sabitflyer/brokerfx.py:64-91 | an entry other than JPY holds its net position and locks nothing |
| Margin.FilledSpec | sabitflyer/brokerfx.py:47-98 | the per-entry amounts of the filled dictionary, as stated by `GetAssetsSpec` |
| Margin.AccumulateTotalsAbsent | sabitflyer/brokerfx.py:72-82 | a name with no entry has no positions |
| Margin.GetAssetsSpec | sabitflyer/brokerfx.py:47-98 | BTC and JPY are present; JPY holds collateral plus JPY positions and locks the required collateral; every other entry holds its net position and locks nothing |
| Margin.MarginAgreesWithAssets | sabitflyer/brokerfx.py:30-59 | the JPY entry of `get_assets` holds the customer margin and locks the maintenance margin of `get_margin_trading` |
| Margin.AddPositions | sabitflyer/brokerfx.py:64-82 | the in-place position loop computes the fold |
| Margin.StoreAmount | sabitflyer/brokerfx.py:72-82 | the new-name and `+=` branches compute one position's step of the fold |
| Margin.FillIn | sabitflyer/brokerfx.py:85-91 | the in-place fill loop computes the zero fill |
| Margin.GetAssets | sabitflyer/brokerfx.py:47-98 | the method returns `(True, map)` with the specified map, or `(False, None)` on any failure |
| Common.ParsedBody | sabitflyer/common.py:9-12 | the parsed body, with an unparseable or `null` body as `None` |
| Common.ErrorParser | sabitflyer/common.py:7-23 | status 200 returns the parsed body, possibly `None`; any other status raises with the body when there is one, else with the fixed message |
| EnumLookup.FirstWithValue | sabitflyer/realtime.py:121-124 | the first member, in declaration order, whose value is the string, or none iff no member has it |
| EnumLookup.FirstWithValueUnique | sabitflyer/realtime.py:121-124 | with distinct values, the member found is the one with that value |
| EnumLookup.Lookup | sabitflyer/realtime.py:121-124 | the loop with early return computes the first match |
| Text.ContainsIffOccurs | sabitflyer/realtime.py:118 | Python's `in` on strings holds iff the pattern occurs at some index |
| Text.RemoveAllAbsent | sabitflyer/realtime.py:119 | `replace` of an absent pattern leaves the string unchanged |
| Text.RemoveAllSkip | sabitflyer/realtime.py:119 | `replace` passes over a prefix that cannot start the pattern |
| Text.RemoveAllLeading | sabitflyer/realtime.py:119 | `replace` removes a leading occurrence |
| Text.SplitJoin | sabitflyer/brokerfx.py:66 | `split` fields hold no separator and join back to the string |
| Text.SplitFirst | sabitflyer/brokerfx.py:66 | the first field of `split` is the text before the first separator |
| Json.Field | sabitflyer/realtime.py:137-139 | a key lookup succeeds iff the object has the key, and gives its value |

The `broker_mt_api.py` functions are the same code as `brokerfx.py` (`get_margin_trading` at sabitflyer/broker_mt_api.py:27-42, `get_assets` at sabitflyer/broker_mt_api.py:44-94), so the `Margin` rows cover both. `Realtime.EndToEnd` is a verified client scenario:

1. construct a client for the `BTC_JPY` snapshot and ticker channels;
2. start it and open it;
3. check the two subscriptions;
4. feed it one ticker notification;
5. check that the ticker callback receives the payload's record.

## Left out

- **The websocket transport** (`WebSocketApp`, `run_forever`, ping and pong). Each transport event is a method call. `Start` records that a handle exists; it does not block.
- **JSON text encoding and decoding.** Frames and payloads are an abstract JSON datatype.
  - A frame whose text is not JSON, or that lacks `method` or `params`, makes the handler raise into the websocket library. The model treats such a frame as a non-notification with no events.
- **Escaping exceptions.** A payload missing a record key raises `KeyError` inside the category handler. This is modelled as "no record, no category callback"; the generic callback has already run.
- **The HTTP clients** (`PrivateAPI`, `PublicAPI`, `public_api`) and their signing. Each request's result is a parameter: an `Option` that is `None` where the request raised, or the `fetch` function in `Margin`.
- **Order-placement wrappers, OCO placement and CSV audit logging.** These are network and filesystem I/O.
- **Dates and clock** (`str2dt`, order dates, `get_dt_short`, `get_dt_long`), `out_shell` printing and `traceback.print_exc`.
- **Float conversions.** `n2d` and `Decimal(str(...))` are left out; amounts are exact `real` values.
- **Threads.** A `stop` from another thread is not modelled.
- **Fields the classifiers do not read.** REST records are typed records holding the fields the modelled code reads. A missing key in a REST record is folded into the request's `None` outcome.
- **In-place updates of `AssetInfo` and `OrderInfo` objects** are modelled as immutable values stored in a map or returned. Nothing else holds a reference to them, so no aliasing is lost.
- **The `enum_asset` alias `BTC = 'BCH'`** in `broker_api.py` belongs to its spot `get_assets`, which is not part of this model.
- **The order date.** `ordered_at` in `broker_api.py` and the child-order date in `broker.py` are dates, which are left out, so the order records have no date field.
- **`Realtime.RealtimeApi.OnOpen` and `StreamApi.StreamClient.OnOpen`** model a failing `send` only as the point where the loop stops. What the library then does is outside the model.
- Stream.EnvelopeOf, Realtime.FrameEvents, Realtime.RealtimeApi.OnMessage, StreamApi.FrameEvents and StreamApi.StreamClient.OnMessage: a `channelMessage` frame whose `params.channel` is present but not a JSON string is treated as malformed, with no events. Python's `in` over non-string values is outside this model, which carries channel names as strings only. The source behaves differently:
  - The legacy client (`sabitflyer/stream_api.py:98-114`) makes the generic call with the raw value. Its substring tests then become Python's `in` on that value: list or key membership, or a `TypeError` for a number.
  - The realtime client (`sabitflyer/realtime.py:117-143`), for an array or object channel with no tag as an element or key, gets `(None, None)` from `__parse_channel` and makes the generic call with `(None, None, message)`. When a tag is an element or key, `replace` raises instead.
