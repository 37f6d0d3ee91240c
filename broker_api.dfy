/** `broker_api`: the older spot client. Its order-status enumeration has
    duplicate values, so Python turns two of its five members into aliases
    of two others; its side and type classifications are two-way and never
    `None`; an empty child-order list is a failure. */
module BrokerApi {
  import opened Json
  import Broker

  /** `enum_order_status`, with the three members that Python keeps.
      `PARTIALLY_FILLED = 'ACTIVE'` repeats the value of `UNFILLED` and
      `CANCELED_PARTIALLY_FILLED = 'CANCELED'` that of `CANCELED_UNFILLED`,
      so those names denote the earlier members (see the constants below). */
  datatype OrderStatus = Unfilled | FullyFilled | CanceledUnfilled

  function StatusValue(s: OrderStatus): string {
    match s
    case Unfilled => "ACTIVE"
    case FullyFilled => "COMPLETED"
    case CanceledUnfilled => "CANCELED"
  }

  /** `enum_order_status.PARTIALLY_FILLED`: an alias. */
  const PartiallyFilled: OrderStatus := Unfilled
  /** `enum_order_status.CANCELED_PARTIALLY_FILLED`: an alias. */
  const CanceledPartiallyFilled: OrderStatus := CanceledUnfilled

  /** The status assignment of `order_check_detail`, branch for branch. The
      executed amount is tested, but both branches of each test land on the
      same member: only the state string matters. */
  function ClassifyStatus(state: string, executed: real): (r: OrderStatus)
    ensures r == Unfilled <==> state == "ACTIVE"
    ensures r == FullyFilled <==> state == "COMPLETED"
    ensures r == CanceledUnfilled <==> state != "ACTIVE" && state != "COMPLETED"
  {
    if state == "ACTIVE" then
      if executed > 0.0 then PartiallyFilled else Unfilled
    else if state == "COMPLETED" then FullyFilled
    else if state == "CANCELED" then
      if executed > 0.0 then CanceledPartiallyFilled else CanceledUnfilled
    else CanceledUnfilled
  }

  /** What the aliasing does to the newer client's six states. */
  function Collapse(s: Broker.OrderState): OrderStatus {
    match s
    case Unfilled => Unfilled
    case PartiallyFilled => PartiallyFilled
    case FullyFilled => FullyFilled
    case CanceledUnfilled => CanceledUnfilled
    case CanceledPartiallyFilled => CanceledPartiallyFilled
    case Unknown => CanceledUnfilled
  }

  /** The two clients classify alike once the aliases are collapsed; the
      older one cannot tell a partly filled order from an unfilled one. */
  lemma ClassifyIsCollapsedAnalyze(state: string, executed: real)
    ensures ClassifyStatus(state, executed) == Collapse(Broker.AnalyzeState(state, executed))
    ensures Broker.AnalyzeState("ACTIVE", 1.0) != Broker.AnalyzeState("ACTIVE", 0.0)
    ensures ClassifyStatus("ACTIVE", 1.0) == ClassifyStatus("ACTIVE", 0.0)
  {
  }

  /** `order_info`: every attribute starts as `None`. */
  datatype OrderInfo = OrderInfo(
    orderId: Option<string>, pair: Option<string>, side: Option<Broker.OrderSide>,
    orderType: Option<Broker.OrderType>, orderPrice: Option<real>, orderSize: Option<real>,
    executedAveragePrice: Option<real>, executedAmount: Option<real>, status: Option<OrderStatus>)

  const EmptyOrderInfo: OrderInfo := OrderInfo(None, None, None, None, None, None, None, None, None)

  /** `order_info.remaining_amount`: the size not yet executed. */
  function RemainingAmount(o: OrderInfo): (r: Option<real>)
    ensures r.Some? <==> o.orderSize.Some? && o.executedAmount.Some?
    ensures r.Some? ==> r.value + o.executedAmount.value == o.orderSize.value
  {
    if o.orderSize.None? || o.executedAmount.None? then None
    else Some(o.orderSize.value - o.executedAmount.value)
  }

  /** The side test of `order_check_detail`: `BUY` exactly for "BUY". */
  function SideOf(text: string): (r: Broker.OrderSide)
    ensures r == Broker.Buy <==> text == Broker.SideValue(Broker.Buy)
    ensures r == Broker.Sell <==> text != "BUY"
  {
    if text == Broker.SideValue(Broker.Buy) then Broker.Buy else Broker.Sell
  }

  /** The type test of `order_check_detail`: `LIMIT` exactly for "LIMIT". */
  function TypeOf(text: string): (r: Broker.OrderType)
    ensures r == Broker.Limit || r == Broker.Market
    ensures r == Broker.Limit <==> text == Broker.TypeValue(Broker.Limit)
  {
    if text == Broker.TypeValue(Broker.Limit) then Broker.Limit else Broker.Market
  }

  /** The two-way side test agrees with `str2side` on the venue's values and
      maps every other string to `SELL` where `str2side` gives `None`. */
  lemma SideOfAgrees(text: string)
    ensures Broker.Str2Side(text).Some? ==> Broker.Str2Side(text) == Some(SideOf(text))
    ensures Broker.Str2Side(text).None? ==> SideOf(text) == Broker.Sell
  {
  }

  /** The order `order_check_detail` builds from the first child order. */
  function OrderInfoOf(c: Broker.ChildOrder): (o: OrderInfo)
    ensures o.status == Some(ClassifyStatus(c.state, c.executedSize))
    ensures RemainingAmount(o) == Some(c.size - c.executedSize)
  {
    OrderInfo(Some(c.acceptanceId), Some(c.productCode), Some(SideOf(c.side)),
              Some(TypeOf(c.childOrderType)), Some(c.price), Some(c.size),
              Some(c.averagePrice), Some(c.executedSize),
              Some(ClassifyStatus(c.state, c.executedSize)))
  }

  /** `order_check_detail`: a fresh `order_info` filled attribute by
      attribute from the first child order. An empty list is a failure here,
      unlike the newer client. */
  method OrderCheckDetail(response: Option<seq<Broker.ChildOrder>>) returns (ok: bool, order: Option<OrderInfo>)
    ensures ok <==> response.Some? && |response.value| > 0
    ensures ok ==> order == Some(OrderInfoOf(response.value[0]))
    ensures !ok ==> order.None?
  {
    if response.None? || |response.value| == 0 {
      return false, None;
    }
    var oi := response.value[0];
    var o := EmptyOrderInfo;
    o := o.(orderId := Some(oi.acceptanceId));
    o := o.(pair := Some(oi.productCode));
    o := o.(side := Some(if oi.side == Broker.SideValue(Broker.Buy) then Broker.Buy else Broker.Sell));
    o := o.(orderType := Some(if oi.childOrderType == Broker.TypeValue(Broker.Limit) then Broker.Limit else Broker.Market));
    o := o.(orderPrice := Some(oi.price));
    o := o.(orderSize := Some(oi.size));
    o := o.(executedAveragePrice := Some(oi.averagePrice));
    o := o.(executedAmount := Some(oi.executedSize));
    var os := oi.state;
    if os == "ACTIVE" {
      if o.executedAmount.value > 0.0 {
        o := o.(status := Some(PartiallyFilled));
      } else {
        o := o.(status := Some(Unfilled));
      }
    } else if os == "COMPLETED" {
      o := o.(status := Some(FullyFilled));
    } else if os == "CANCELED" {
      if o.executedAmount.value > 0.0 {
        o := o.(status := Some(CanceledPartiallyFilled));
      } else {
        o := o.(status := Some(CanceledUnfilled));
      }
    } else {
      o := o.(status := Some(CanceledUnfilled));
    }
    return true, Some(o);
  }

  /** Where the two clients' `order_check_detail` differ: on an empty list
      the newer one succeeds with an `UNKNOWN` placeholder and this one
      fails; otherwise they succeed together. */
  lemma EmptyResultDiffers(response: Option<seq<Broker.ChildOrder>>)
    ensures Broker.OrderCheckDetail(response).0 && !(response.Some? && |response.value| > 0)
            <==> response == Some([])
  {
  }
}
