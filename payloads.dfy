/** The typed records that both streaming clients build from a data
    notification's `message` before handing it to a category callback. Each
    record copies the named keys of the payload unchanged (no type check);
    a missing key or a payload that is not a dictionary makes Python raise
    (`KeyError`, `TypeError`), which here is `None`: no record, so no
    category callback. */
module Payloads {
  import opened Json

  /** One order-book message (`lightning_board` or `lightning_board_snapshot`). */
  datatype BoardData = BoardData(midPrice: Json, bids: Json, asks: Json)

  /** One ticker message. */
  datatype TickerData = TickerData(
    productCode: Json, timestamp: Json, tickId: Json,
    bestBid: Json, bestAsk: Json, bestBidSize: Json, bestAskSize: Json,
    totalBidDepth: Json, totalAskDepth: Json, ltp: Json, volume: Json,
    volumeByProduct: Json)

  /** One execution of an executions batch; `orderId` is the payload's `id`. */
  datatype ExecutionData = ExecutionData(
    orderId: Json, side: Json, price: Json, size: Json, execDate: Json,
    buyChildOrderAcceptanceId: Json, sellChildOrderAcceptanceId: Json)

  const BoardKeys: set<string> := {"mid_price", "bids", "asks"}
  const TickerKeys: set<string> := {
    "product_code", "timestamp", "tick_id", "best_bid", "best_ask",
    "best_bid_size", "best_ask_size", "total_bid_depth", "total_ask_depth",
    "ltp", "volume", "volume_by_product"}
  const ExecutionKeys: set<string> := {
    "id", "side", "price", "size", "exec_date",
    "buy_child_order_acceptance_id", "sell_child_order_acceptance_id"}

  /** `BoardData(msg)`. */
  function DecodeBoard(msg: Json): Option<BoardData> {
    if HasKeys(msg, BoardKeys) then
      var f := msg.fields;
      Some(BoardData(f["mid_price"], f["bids"], f["asks"]))
    else None
  }

  /** `TickerData(msg)`. */
  function DecodeTicker(msg: Json): Option<TickerData> {
    if HasKeys(msg, TickerKeys) then
      var f := msg.fields;
      Some(TickerData(
        f["product_code"], f["timestamp"], f["tick_id"], f["best_bid"], f["best_ask"],
        f["best_bid_size"], f["best_ask_size"], f["total_bid_depth"], f["total_ask_depth"],
        f["ltp"], f["volume"], f["volume_by_product"]))
    else None
  }

  /** `ExecutionData(msg)`. */
  function DecodeExecution(msg: Json): Option<ExecutionData> {
    if HasKeys(msg, ExecutionKeys) then
      var f := msg.fields;
      Some(ExecutionData(
        f["id"], f["side"], f["price"], f["size"], f["exec_date"],
        f["buy_child_order_acceptance_id"], f["sell_child_order_acceptance_id"]))
    else None
  }

  /** The payload the venue sends for a board record. */
  function BoardJson(d: BoardData): Json {
    JObj(map["mid_price" := d.midPrice, "bids" := d.bids, "asks" := d.asks])
  }

  /** The payload the venue sends for a ticker record. */
  function TickerJson(d: TickerData): Json {
    JObj(map[
      "product_code" := d.productCode, "timestamp" := d.timestamp, "tick_id" := d.tickId,
      "best_bid" := d.bestBid, "best_ask" := d.bestAsk,
      "best_bid_size" := d.bestBidSize, "best_ask_size" := d.bestAskSize,
      "total_bid_depth" := d.totalBidDepth, "total_ask_depth" := d.totalAskDepth,
      "ltp" := d.ltp, "volume" := d.volume, "volume_by_product" := d.volumeByProduct])
  }

  /** The payload entry the venue sends for one execution. */
  function ExecutionJson(d: ExecutionData): Json {
    JObj(map[
      "id" := d.orderId, "side" := d.side, "price" := d.price, "size" := d.size,
      "exec_date" := d.execDate,
      "buy_child_order_acceptance_id" := d.buyChildOrderAcceptanceId,
      "sell_child_order_acceptance_id" := d.sellChildOrderAcceptanceId])
  }

  /** Decoding a well-formed board payload gives back every field. */
  lemma BoardRoundTrip(d: BoardData)
    ensures DecodeBoard(BoardJson(d)) == Some(d)
  {
  }

  /** Decoding a well-formed ticker payload gives back every field (so the
      callback sees the payload's `ltp` and `tick_id`, among the others). */
  lemma TickerRoundTrip(d: TickerData)
    ensures DecodeTicker(TickerJson(d)) == Some(d)
  {
  }

  /** Decoding a well-formed execution entry gives back every field. */
  lemma ExecutionRoundTrip(d: ExecutionData)
    ensures DecodeExecution(ExecutionJson(d)) == Some(d)
  {
  }

  /** A decoded record is exactly the payload's fields: the payload can be
      rebuilt from it, up to keys the record does not read. */
  lemma BoardDecodeFaithful(msg: Json)
    requires DecodeBoard(msg).Some?
    ensures forall k :: k in BoardKeys ==> BoardJson(DecodeBoard(msg).value).fields[k] == msg.fields[k]
  {
  }

  /** The records of a list of execution entries, in payload order; the
      first entry that fails to decode aborts the whole list. */
  function DecodeAll(items: seq<Json>): (r: Option<seq<ExecutionData>>)
    ensures r.Some? <==> forall i :: 0 <= i < |items| ==> DecodeExecution(items[i]).Some?
    ensures r.Some? ==> |r.value| == |items|
    ensures r.Some? ==> forall i :: 0 <= i < |items| ==> DecodeExecution(items[i]) == Some(r.value[i])
  {
    if items == [] then Some([])
    else
      var init := DecodeAll(items[..|items| - 1]);
      var last := DecodeExecution(items[|items| - 1]);
      assert forall i :: 0 <= i < |items| - 1 ==> items[..|items| - 1][i] == items[i];
      if init.Some? && last.Some? then Some(init.value + [last.value]) else None
  }

  /** What `for execution in rcv_message` yields records for: a list yields
      its entries; an empty dictionary or empty string yields nothing, so the
      batch is empty; any other value makes Python raise. */
  function ExecutionsOf(message: Json): Option<seq<ExecutionData>> {
    match message
    case JArr(items) => DecodeAll(items)
    case JObj(fields) => if fields == map[] then Some([]) else None
    case JStr(s) => if s == "" then Some([]) else None
    case _ => None
  }

  /** An executions payload of N well-formed entries decodes to N records,
      in payload order. */
  lemma {:induction false} ExecutionsRoundTrip(ds: seq<ExecutionData>)
    ensures ExecutionsOf(JArr(seq(|ds|, i requires 0 <= i < |ds| => ExecutionJson(ds[i])))) == Some(ds)
  {
    var items := seq(|ds|, i requires 0 <= i < |ds| => ExecutionJson(ds[i]));
    forall i | 0 <= i < |items| ensures DecodeExecution(items[i]) == Some(ds[i]) {
      ExecutionRoundTrip(ds[i]);
    }
    var r := DecodeAll(items);
    assert r.Some?;
    assert r.value == ds;
  }

  /** The executions handler's loop: one record appended per entry, in order. */
  method DecodeExecutions(message: Json) returns (data: Option<seq<ExecutionData>>)
    ensures data == ExecutionsOf(message)
  {
    match message {
      case JArr(items) =>
        var list: seq<ExecutionData> := [];
        var i := 0;
        while i < |items|
          invariant 0 <= i <= |items|
          invariant DecodeAll(items[..i]) == Some(list)
        {
          var record := DecodeExecution(items[i]);
          if record.None? {
            DecodeAllFails(items, i);
            return None;
          }
          assert items[..i + 1][..i] == items[..i];
          list := list + [record.value];
          i := i + 1;
        }
        assert items[..i] == items;
        return Some(list);
      case JObj(fields) =>
        return if fields == map[] then Some([]) else None;
      case JStr(s) =>
        return if s == "" then Some([]) else None;
      case _ =>
        return None;
    }
  }

  /** One undecodable entry makes the whole batch undecodable. */
  lemma DecodeAllFails(items: seq<Json>, i: int)
    requires 0 <= i < |items| && DecodeExecution(items[i]).None?
    ensures DecodeAll(items).None?
  {
  }
}
