/** core/master_trade.py: size a market order from a USD amount and the
    broker's price, place exactly one order, and enqueue exactly one event for
    the copy engine. The broker is abstract: its price, its optional
    adjust_quantity and the id (or exception) place_order returns are inputs;
    the two effects are recorded in a log. */
module MasterTrade {
  import opened Wrappers
  import opened JsonValues
  import opened Text

  const ORDER_TYPE: string := "MKT"
  const EVENT_TYPE: string := "MASTER_TRADE"

  /** The optional signal metadata; a missing key reads as None (JNull). */
  datatype Meta = Meta(source: Json, strategy: Json, signalId: Json)

  datatype OrderRequest = OrderRequest(symbol: Json, side: string, quantity: real, orderType: string)

  datatype MasterEvent = MasterEvent(
    eventType: string, symbol: Json, side: string, qty: real, price: real, usdAmount: real,
    source: Json, strategy: Json, signalId: Json, ts: string, orderId: string, masterTradeId: string)

  /** The exceptions place_master_trade raises or lets through. */
  datatype TradeError = BrokerRaised(message: string) | PriceNotFound(price: Option<real>) | NonPositiveQty(qty: real)

  /** The calls made on the outside world: orders sent to the broker and events
      handed to the copy engine. */
  class TradeEffects {
    var orders: seq<OrderRequest>
    var queue: seq<MasterEvent>

    constructor ()
      ensures orders == [] && queue == []
    {
      orders, queue := [], [];
    }
  }

  /** `meta or {}` read with `.get`: absent metadata gives None fields. */
  function MetaOrEmpty(meta: Option<Meta>): (m: Meta)
    ensures meta.None? ==> m.source == JNull && m.strategy == JNull && m.signalId == JNull
    ensures meta.Some? ==> m == meta.value
  {
    meta.GetOr(Meta(JNull, JNull, JNull))
  }

  /** The price guard and the quantity: (price, qty) when both guards pass. */
  function Sizing(symbol: Json, usdAmount: real, price: Option<real>, adjust: Option<(Json, real) -> real>)
    : (r: Result<(real, real), TradeError>)
    ensures r.Success? ==> r.value.0 > 0.0 && r.value.1 > 0.0 && price == Some(r.value.0)
    ensures r.Success? && adjust.None? ==> r.value.1 * r.value.0 == usdAmount
    ensures price.None? || price.value <= 0.0 ==> r == Failure(PriceNotFound(price))
    ensures price.Some? && price.value > 0.0 && adjust.None? ==> (r.Success? <==> usdAmount > 0.0)
    ensures price.Some? && price.value > 0.0 ==>
      var q := if adjust.Some? then adjust.value(symbol, usdAmount / price.value) else usdAmount / price.value;
      && (r.Success? <==> q > 0.0)
      && (r.Success? ==> r.value.1 == q)
      && (r.Failure? ==> r == Failure(NonPositiveQty(q)))
  {
    // `not price or price <= 0`: no price, a zero price or a negative one
    if price.None? || price.value <= 0.0 then Failure(PriceNotFound(price))
    else
      var p := price.value;
      var qty := usdAmount / p;
      var qty := if adjust.Some? then adjust.value(symbol, qty) else qty;
      if qty <= 0.0 then Failure(NonPositiveQty(qty))
      else Success((p, qty))
  }

  /** The value place_master_trade returns, or the exception it raises. */
  function MasterTradeResult(
    symbol: Json, side: string, usdAmount: real, meta: Option<Meta>,
    price: Call<Option<real>>, adjust: Option<(Json, real) -> real>, orderId: Call<string>,
    ts: string, masterTradeId: string)
    : (r: Result<MasterEvent, TradeError>)
    ensures r.Success? <==> price.Returned? && Sizing(symbol, usdAmount, price.value, adjust).Success? && orderId.Returned?
    ensures r.Success? ==>
      var e := r.value;
      && e.eventType == EVENT_TYPE && e.symbol == symbol && e.side == Upper(side)
      && e.usdAmount == usdAmount && e.price > 0.0 && e.qty > 0.0
      && e.price == price.value.value
      && e.qty == Sizing(symbol, usdAmount, price.value, adjust).value.1
      && e.orderId == orderId.value && e.ts == ts && e.masterTradeId == masterTradeId
      && e.source == MetaOrEmpty(meta).source && e.strategy == MetaOrEmpty(meta).strategy
      && e.signalId == MetaOrEmpty(meta).signalId
    ensures r.Success? && adjust.None? ==> r.value.qty * r.value.price == usdAmount
  {
    var m := MetaOrEmpty(meta);
    match price
    case Raised(message) => Failure(BrokerRaised(message))
    case Returned(p) =>
      match Sizing(symbol, usdAmount, p, adjust)
      case Failure(e) => Failure(e)
      case Success((px, qty)) =>
        match orderId
        case Raised(message) => Failure(BrokerRaised(message))
        case Returned(id) =>
          Success(MasterEvent(EVENT_TYPE, symbol, Upper(side), qty, px, usdAmount,
                              m.source, m.strategy, m.signalId, ts, id, masterTradeId))
  }

  /** place_master_trade: no order and no event unless the price and the
      quantity pass; then exactly one MKT order; then, if the broker accepted
      it, exactly one enqueued event, the one returned. */
  method PlaceMasterTrade(
    fx: TradeEffects, symbol: Json, side: string, usdAmount: real, meta: Option<Meta>,
    price: Call<Option<real>>, adjust: Option<(Json, real) -> real>, orderId: Call<string>,
    ts: string, masterTradeId: string)
    returns (r: Result<MasterEvent, TradeError>)
    modifies fx
    ensures r == MasterTradeResult(symbol, side, usdAmount, meta, price, adjust, orderId, ts, masterTradeId)
    ensures price.Raised? || Sizing(symbol, usdAmount, price.value, adjust).Failure?
            ==> fx.orders == old(fx.orders)
    ensures price.Returned? && Sizing(symbol, usdAmount, price.value, adjust).Success?
            ==> fx.orders == old(fx.orders)
                  + [OrderRequest(symbol, Upper(side), Sizing(symbol, usdAmount, price.value, adjust).value.1, ORDER_TYPE)]
    ensures r.Success? ==> fx.queue == old(fx.queue) + [r.value]
    ensures r.Failure? ==> fx.queue == old(fx.queue)
  {
    var m := MetaOrEmpty(meta);
    var s := Upper(side);
    if price.Raised? {
      return Failure(BrokerRaised(price.message));
    }
    var sized := Sizing(symbol, usdAmount, price.value, adjust);
    if sized.Failure? {
      return Failure(sized.error);
    }
    var (px, qty) := sized.value;
    fx.orders := fx.orders + [OrderRequest(symbol, s, qty, ORDER_TYPE)];
    if orderId.Raised? {
      return Failure(BrokerRaised(orderId.message));
    }
    var event := MasterEvent(EVENT_TYPE, symbol, s, qty, px, usdAmount,
                             m.source, m.strategy, m.signalId, ts, orderId.value, masterTradeId);
    fx.queue := fx.queue + [event];
    r := Success(event);
  }

  /** Without adjust_quantity, a positive amount at a positive price always
      trades, for exactly amount / price units. */
  lemma PositiveAmountTrades(
    symbol: Json, side: string, usdAmount: real, meta: Option<Meta>, p: real, id: string,
    ts: string, masterTradeId: string)
    requires usdAmount > 0.0 && p > 0.0
    ensures var r := MasterTradeResult(symbol, side, usdAmount, meta, Returned(Some(p)), None, Returned(id), ts, masterTradeId);
      r.Success? && r.value.qty == usdAmount / p && r.value.price == p
  {
  }
}
