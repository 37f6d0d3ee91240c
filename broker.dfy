/** `BrokerAPI` (spot trading): the mappings from the venue's strings to the
    client's enumerations, the amounts derived from an order or an asset,
    and the rules for empty order lists, special-order parameters and
    special-order cancellation. Requests to the venue are inputs. */
module Broker {
  import opened Json

  // ---------------------------------------------------------------------------
  // Side and type
  // ---------------------------------------------------------------------------

  /** `OrderSide`. */
  datatype OrderSide = Buy | Sell

  function SideValue(s: OrderSide): string {
    match s
    case Buy => "BUY"
    case Sell => "SELL"
  }

  /** `str2side`: the side whose value is the string, else `None`. */
  function Str2Side(text: string): (r: Option<OrderSide>)
    ensures forall s :: r == Some(s) <==> SideValue(s) == text
  {
    if text == SideValue(Buy) then Some(Buy)
    else if text == SideValue(Sell) then Some(Sell)
    else None
  }

  /** `OrderType`. */
  datatype OrderType = Limit | Market | Simple | Ifd | Oco | IfdOco

  function TypeValue(t: OrderType): string {
    match t
    case Limit => "LIMIT"
    case Market => "MARKET"
    case Simple => "SIMPLE"
    case Ifd => "IFD"
    case Oco => "OCO"
    case IfdOco => "IFDOCO"
  }

  /** The members of `OrderType` in declaration order. */
  const OrderTypes: seq<OrderType> := [Limit, Market, Simple, Ifd, Oco, IfdOco]

  /** The position of a type in declaration order. */
  function TypeIndex(t: OrderType): (i: nat)
    ensures i < |OrderTypes| && OrderTypes[i] == t
  {
    match t
    case Limit => 0
    case Market => 1
    case Simple => 2
    case Ifd => 3
    case Oco => 4
    case IfdOco => 5
  }

  /** `str2type`: the loop over the members with an early `return`. */
  method Str2Type(text: string) returns (r: Option<OrderType>)
    ensures forall t :: r == Some(t) <==> TypeValue(t) == text
  {
    var i := 0;
    while i < |OrderTypes|
      invariant 0 <= i <= |OrderTypes|
      invariant forall j :: 0 <= j < i ==> TypeValue(OrderTypes[j]) != text
    {
      if TypeValue(OrderTypes[i]) == text {
        return Some(OrderTypes[i]);
      }
      i := i + 1;
    }
    forall t ensures TypeValue(t) != text {
      assert OrderTypes[TypeIndex(t)] == t;
    }
    return None;
  }

  // ---------------------------------------------------------------------------
  // Order state
  // ---------------------------------------------------------------------------

  /** `OrderState`, an `IntEnum` numbered from 1 in declaration order. */
  datatype OrderState =
    | Unfilled | PartiallyFilled | FullyFilled
    | CanceledUnfilled | CanceledPartiallyFilled | Unknown

  /** `OrderInfo.__analize_state`: a total classification of the venue's
      state string and the executed amount. Every outcome except `Unknown`
      is reachable, and each has exactly one description. */
  function AnalyzeState(state: string, executed: real): (r: OrderState)
    ensures r != Unknown
    ensures r == Unfilled <==> state == "ACTIVE" && executed <= 0.0
    ensures r == PartiallyFilled <==> state == "ACTIVE" && executed > 0.0
    ensures r == FullyFilled <==> state == "COMPLETED"
    ensures r == CanceledPartiallyFilled <==> state == "CANCELED" && executed > 0.0
    ensures r == CanceledUnfilled <==>
              (state == "CANCELED" && executed <= 0.0) ||
              (state != "ACTIVE" && state != "COMPLETED" && state != "CANCELED")
  {
    if state == "ACTIVE" then
      if executed > 0.0 then PartiallyFilled else Unfilled
    else if state == "COMPLETED" then FullyFilled
    else if state == "CANCELED" then
      if executed > 0.0 then CanceledPartiallyFilled else CanceledUnfilled
    else CanceledUnfilled
  }

  // ---------------------------------------------------------------------------
  // Venue status
  // ---------------------------------------------------------------------------

  /** `HealthStatus`. */
  datatype HealthStatus = Normal | Busy | VeryBusy | SuperBusy | NoOrder | Stop

  function HealthValue(h: HealthStatus): string {
    match h
    case Normal => "NORMAL"
    case Busy => "BUSY"
    case VeryBusy => "VERY BUSY"
    case SuperBusy => "SUPER BUSY"
    case NoOrder => "NO ORDER"
    case Stop => "STOP"
  }

  const HealthStatuses: seq<HealthStatus> := [Normal, Busy, VeryBusy, SuperBusy, NoOrder, Stop]

  function HealthIndex(h: HealthStatus): (i: nat)
    ensures i < |HealthStatuses| && HealthStatuses[i] == h
  {
    match h
    case Normal => 0
    case Busy => 1
    case VeryBusy => 2
    case SuperBusy => 3
    case NoOrder => 4
    case Stop => 5
  }

  /** `StateStatus`. */
  datatype StateStatus = Running | Closed | Starting | Preopen | CircuitBreak | AwaitingSq | Matured

  function StateValue(s: StateStatus): string {
    match s
    case Running => "RUNNING"
    case Closed => "CLOSED"
    case Starting => "STARTING"
    case Preopen => "PREOPEN"
    case CircuitBreak => "CIRCUIT BREAK"
    case AwaitingSq => "AWAITING SQ"
    case Matured => "MATURED"
  }

  const StateStatuses: seq<StateStatus> := [Running, Closed, Starting, Preopen, CircuitBreak, AwaitingSq, Matured]

  function StateIndex(s: StateStatus): (i: nat)
    ensures i < |StateStatuses| && StateStatuses[i] == s
  {
    match s
    case Running => 0
    case Closed => 1
    case Starting => 2
    case Preopen => 3
    case CircuitBreak => 4
    case AwaitingSq => 5
    case Matured => 6
  }

  /** `__cvt_status_health`: the member whose value is the text; `Stop`
      when there is none. */
  method CvtStatusHealth(text: string) returns (r: HealthStatus)
    ensures forall h :: HealthValue(h) == text ==> r == h
    ensures HealthValue(r) == text || (r == Stop && forall h :: HealthValue(h) != text)
  {
    r := Stop;
    var i := 0;
    while i < |HealthStatuses|
      invariant 0 <= i <= |HealthStatuses|
      invariant forall j :: 0 <= j < i ==> HealthValue(HealthStatuses[j]) != text
    {
      if HealthValue(HealthStatuses[i]) == text {
        r := HealthStatuses[i];
        break;
      }
      i := i + 1;
    }
    forall h ensures HealthValue(h) == text ==> r == h {
      assert HealthStatuses[HealthIndex(h)] == h;
    }
  }

  /** `__cvt_status_state`: the member whose value is the text; `Closed`
      when there is none. */
  method CvtStatusState(text: string) returns (r: StateStatus)
    ensures forall s :: StateValue(s) == text ==> r == s
    ensures StateValue(r) == text || (r == Closed && forall s :: StateValue(s) != text)
  {
    r := Closed;
    var i := 0;
    while i < |StateStatuses|
      invariant 0 <= i <= |StateStatuses|
      invariant forall j :: 0 <= j < i ==> StateValue(StateStatuses[j]) != text
    {
      if StateValue(StateStatuses[i]) == text {
        r := StateStatuses[i];
        break;
      }
      i := i + 1;
    }
    forall s ensures StateValue(s) == text ==> r == s {
      assert StateStatuses[StateIndex(s)] == s;
    }
  }

  // ---------------------------------------------------------------------------
  // Derived amounts
  // ---------------------------------------------------------------------------

  /** `AssetInfo`: a currency and its amounts, each possibly `None`. */
  datatype AssetInfo = AssetInfo(name: string, onhand: Option<real>, free: Option<real>)

  /** `AssetInfo.locked_amount`: what is held but not free. */
  function LockedAmount(a: AssetInfo): (r: Option<real>)
    ensures r.Some? <==> a.onhand.Some? && a.free.Some?
    ensures r.Some? ==> a.free.value + r.value == a.onhand.value
  {
    if a.onhand.None? || a.free.None? then None
    else Some(a.onhand.value - a.free.value)
  }

  /** One entry of the venue's child-order list, with the fields the client
      reads (the two dates are left out). */
  datatype ChildOrder = ChildOrder(
    acceptanceId: string, productCode: string, side: string, childOrderType: string,
    price: real, size: real, averagePrice: real, executedSize: real,
    totalCommission: real, outstandingSize: real, cancelSize: real, state: string)

  /** `OrderInfo`: every attribute starts as `None`. */
  datatype OrderInfo = OrderInfo(
    orderId: Option<string>, orderPair: Option<string>,
    orderSide: Option<OrderSide>, orderType: Option<OrderType>, orderState: Option<OrderState>,
    orderPrice: Option<real>, orderAmount: Option<real>, executedAvePrice: Option<real>,
    executedAmount: Option<real>, executedCommission: Option<real>,
    outstandingAmount: Option<real>, canceledAmount: Option<real>)

  /** `OrderInfo()`: nothing known. */
  const EmptyOrderInfo: OrderInfo :=
    OrderInfo(None, None, None, None, None, None, None, None, None, None, None, None)

  /** `OrderInfo.executed_actual_amount`: the executed amount net of the
      commission. */
  function ExecutedActualAmount(o: OrderInfo): (r: Option<real>)
    ensures r.Some? <==> o.executedAmount.Some? && o.executedCommission.Some?
    ensures r.Some? ==> r.value + o.executedCommission.value == o.executedAmount.value
  {
    if o.executedAmount.None? || o.executedCommission.None? then None
    else Some(o.executedAmount.value - o.executedCommission.value)
  }

  /** The `OrderType` member whose value is the text (what `Str2Type`
      computes). */
  function TypeOf(text: string): (r: Option<OrderType>)
    ensures forall t :: r == Some(t) <==> TypeValue(t) == text
  {
    if exists t :: TypeValue(t) == text then
      var t :| TypeValue(t) == text;
      Some(t)
    else None
  }

  /** `OrderInfo(info)`: every attribute read from the entry. */
  function OrderInfoOf(c: ChildOrder): (o: OrderInfo)
    ensures o.orderId == Some(c.acceptanceId) && o.orderPair == Some(c.productCode)
    ensures o.orderState == Some(AnalyzeState(c.state, c.executedSize))
    ensures o.orderSide == Str2Side(c.side) && o.orderType == TypeOf(c.childOrderType)
    ensures ExecutedActualAmount(o) == Some(c.executedSize - c.totalCommission)
  {
    OrderInfo(Some(c.acceptanceId), Some(c.productCode), Str2Side(c.side), TypeOf(c.childOrderType),
              Some(AnalyzeState(c.state, c.executedSize)), Some(c.price), Some(c.size),
              Some(c.averagePrice), Some(c.executedSize), Some(c.totalCommission),
              Some(c.outstandingSize), Some(c.cancelSize))
  }

  /** The placeholder for an empty result: state `Unknown`, nothing else. */
  const UnknownOrder: OrderInfo := EmptyOrderInfo.(orderState := Some(Unknown))

  // ---------------------------------------------------------------------------
  // Empty results
  // ---------------------------------------------------------------------------

  /** `order_check_detail`. `response` is the child-order list, or `None`
      when the request raised; the result is `(result, rtn_order)`. */
  function OrderCheckDetail(response: Option<seq<ChildOrder>>): (r: (bool, Option<OrderInfo>))
    ensures r.0 <==> response.Some?
    ensures r.0 <==> r.1.Some?
    ensures r.1.Some? ==> (r.1.value.orderState == Some(Unknown) <==> response.value == [])
    ensures r.1.Some? && response.value != [] ==> r.1.value == OrderInfoOf(response.value[0])
  {
    match response
    case None => (false, None)
    case Some(infos) =>
      if |infos| > 0 then (true, Some(OrderInfoOf(infos[0])))
      else (true, Some(UnknownOrder))
  }

  /** `so_check_details`: one `OrderInfo` per child order, in order, or a
      one-element list holding the placeholder when there are none; its
      first element is what `order_check_detail` returns. */
  method SoCheckDetails(response: Option<seq<ChildOrder>>) returns (ok: bool, orders: Option<seq<OrderInfo>>)
    ensures ok <==> response.Some?
    ensures ok <==> orders.Some?
    ensures ok && response.value == [] ==> orders.value == [UnknownOrder]
    ensures ok && response.value != [] ==>
              |orders.value| == |response.value| &&
              forall i :: 0 <= i < |response.value| ==> orders.value[i] == OrderInfoOf(response.value[i])
    ensures ok ==> OrderCheckDetail(response) == (true, Some(orders.value[0]))
  {
    if response.None? {
      return false, None;
    }
    var infos := response.value;
    var list: seq<OrderInfo> := [];
    if |infos| > 0 {
      var i := 0;
      while i < |infos|
        invariant 0 <= i <= |infos|
        invariant |list| == i
        invariant forall j :: 0 <= j < i ==> list[j] == OrderInfoOf(infos[j])
      {
        list := list + [OrderInfoOf(infos[i])];
        i := i + 1;
      }
    } else {
      list := list + [EmptyOrderInfo];
      list := list[0 := list[0].(orderState := Some(Unknown))];
    }
    return true, Some(list);
  }

  // ---------------------------------------------------------------------------
  // Special orders
  // ---------------------------------------------------------------------------

  /** `ConditionType`: how a leg of a special order executes. */
  datatype ConditionType = CondLimit | CondMarket | CondStop | CondStopLimit | CondTrail

  function ConditionValue(c: ConditionType): string {
    match c
    case CondLimit => "LIMIT"
    case CondMarket => "MARKET"
    case CondStop => "STOP"
    case CondStopLimit => "STOP_LIMIT"
    case CondTrail => "TRAIL"
  }

  /** `so_mk_prms_limit`: a limit leg; the price goes under `price`. */
  function SoMkPrmsLimit(productCode: string, side: string, price: real, size: real): (r: Json)
    ensures r.JObj? && r.fields.Keys == {"product_code", "condition_type", "side", "price", "size"}
  {
    JObj(map["product_code" := JStr(productCode),
             "condition_type" := JStr(ConditionValue(CondLimit)),
             "side" := JStr(side),
             "price" := JNum(price),
             "size" := JNum(size)])
  }

  /** `so_mk_prms_stop`: a stop leg; the price goes under `trigger_price`. */
  function SoMkPrmsStop(productCode: string, side: string, price: real, size: real): (r: Json)
    ensures r.JObj? && r.fields.Keys == {"product_code", "condition_type", "side", "trigger_price", "size"}
  {
    JObj(map["product_code" := JStr(productCode),
             "condition_type" := JStr(ConditionValue(CondStop)),
             "side" := JStr(side),
             "trigger_price" := JNum(price),
             "size" := JNum(size)])
  }

  /** How the venue reads a leg: its condition type, and the price under the
      key that condition uses (`price` for a limit, `trigger_price` for a
      stop). */
  function LegPrice(leg: Json): Option<(ConditionType, real)> {
    match Field(leg, "condition_type")
    case Some(JStr(c)) =>
      if c == ConditionValue(CondLimit) then
        (match Field(leg, "price") case Some(JNum(p)) => Some((CondLimit, p)) case _ => None)
      else if c == ConditionValue(CondStop) then
        (match Field(leg, "trigger_price") case Some(JNum(p)) => Some((CondStop, p)) case _ => None)
      else None
    case _ => None
  }

  /** Each builder puts its price where the venue looks for it. */
  lemma LegRoundTrip(productCode: string, side: string, price: real, size: real)
    ensures LegPrice(SoMkPrmsLimit(productCode, side, price, size)) == Some((CondLimit, price))
    ensures LegPrice(SoMkPrmsStop(productCode, side, price, size)) == Some((CondStop, price))
    ensures Field(SoMkPrmsLimit(productCode, side, price, size), "side") == Some(JStr(side))
    ensures Field(SoMkPrmsStop(productCode, side, price, size), "size") == Some(JNum(size))
  {
    assert ConditionValue(CondStop) != ConditionValue(CondLimit);
  }

  /** The cancel request `so_cancel` sends. */
  datatype CancelTarget = ByAcceptanceId(acceptanceId: string) | ByOrderId(orderId: string)

  /** `so_cancel`. `apiRaises` says whether the cancel request raises. The
      results are `result`, the request sent (if any), and the id and memo
      that are logged. */
  method SoCancel(acceptanceId: Option<string>, orderId: Option<string>, apiRaises: bool)
    returns (result: bool, request: Option<CancelTarget>, cId: Option<string>, memo: Option<string>)
    ensures acceptanceId.Some? ==> request == Some(ByAcceptanceId(acceptanceId.value))
    ensures acceptanceId.None? && orderId.Some? ==> request == Some(ByOrderId(orderId.value))
    ensures acceptanceId.None? && orderId.None? ==> request.None? && cId.None? && memo.None?
    ensures result <==> request.Some? && !apiRaises
    ensures request.Some? ==> cId == Some(match request.value
                                           case ByAcceptanceId(a) => a
                                           case ByOrderId(o) => o)
    ensures request.Some? ==> memo == Some(if request.value.ByAcceptanceId? then "parent_order_acceptance_id"
                                           else "parent_order_id")
  {
    result, request, cId, memo := false, None, None, None;
    if acceptanceId.Some? {
      cId := acceptanceId;
      memo := Some("parent_order_acceptance_id");
      request := Some(ByAcceptanceId(acceptanceId.value));
      result := !apiRaises;
    } else if orderId.Some? {
      cId := orderId;
      memo := Some("parent_order_id");
      request := Some(ByOrderId(orderId.value));
      result := !apiRaises;
    } else {
      result := false;
    }
  }
}
