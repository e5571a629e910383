/** api/app.old.py, route /api/signal: read the signal's fields, validate
    symbol and side, then the risk type, then the amount; a PAPER signal is
    acknowledged without touching the broker, any other is traded live through
    place_master_trade. Every exception becomes a 500. */
module SignalApi {
  import opened Wrappers
  import opened JsonValues
  import opened Text
  import opened MasterTrade

  const INVALID_SYMBOL_OR_SIDE: string := "invalid symbol or side"
  const ONLY_USD: string := "only USD supported"
  const NON_POSITIVE_AMOUNT: string := "usd_amount must be > 0"

  /** The payload's fields as the handler reads them, before any check. */
  datatype SignalFields = SignalFields(
    symbol: Json, sideRaw: string, mode: string, riskType: string, usdAmount: Json, meta: Meta)

  /** What the guard chain decides. */
  datatype Decision =
    | BadRequest(error: string)
    | ServerError
    | Paper
    | Dispatch(symbol: Json, side: string, usdAmount: real, meta: Meta)

  /** The response of the route. A 500 carries the exception the trade raised
      (`str(e)` of it in the source), or None when reading the payload raised. */
  datatype SignalReply = Rejected(error: string) | Failed(cause: Option<TradeError>) | PaperAck | Traded(event: MasterEvent) {
    function Code(): int {
      match this
      case Rejected(_) => 400
      case Failed(_) => 500
      case _ => 200
    }
  }

  /** `request.get_json(force=True) or {}`: the payload's dict, or None when
      that raises or the truthy payload is not a dict (`.get` then raises). */
  function PayloadDict(payload: Option<Json>): (f: Option<seq<(string, Json)>>)
    ensures payload.None? ==> f.None?
    ensures payload.Some? && !Truthy(payload.value) ==> f == Some([])
    ensures payload.Some? && Truthy(payload.value) ==>
              (f.Some? <==> payload.value.JObj?) && (f.Some? ==> f.value == payload.value.fields)
  {
    if payload.None? then None
    else if !Truthy(payload.value) then Some([])
    else if payload.value.JObj? then Some(payload.value.fields)
    else None
  }

  /** Reading the dict's fields: None when a truthy "side", "mode" or
      "risk_type" is not a string, on which `.lower()`/`.upper()` raises.
      Falsy values take the defaults "", LIVE and USD. */
  function ReadFields(f: seq<(string, Json)>): (r: Option<SignalFields>)
    ensures r.None? <==> NotText(GetOr(f, "side", JNull)) || NotText(GetOr(f, "mode", JNull))
                         || NotText(GetOr(f, "risk_type", JNull))
    ensures r.Some? ==>
      && r.value.symbol == GetOr(f, "symbol", JNull)
      && r.value.usdAmount == GetOr(f, "usd_amount", JNull)
      && (!HasKey(f, "mode") ==> r.value.mode == "LIVE")
      && (!HasKey(f, "risk_type") ==> r.value.riskType == "USD")
      && (!HasKey(f, "side") ==> r.value.sideRaw == "")
    ensures r.Some? ==>
      var side := GetOr(f, "side", JNull);
      var mode := GetOr(f, "mode", JNull);
      var risk := GetOr(f, "risk_type", JNull);
      && (Truthy(side) ==> r.value.sideRaw == Lower(side.s))
      && (!Truthy(side) ==> r.value.sideRaw == "")
      && (Truthy(mode) ==> r.value.mode == Upper(mode.s))
      && (!Truthy(mode) ==> r.value.mode == "LIVE")
      && (Truthy(risk) ==> r.value.riskType == Upper(risk.s))
      && (!Truthy(risk) ==> r.value.riskType == "USD")
      && r.value.meta == Meta(GetOr(f, "source", JNull), GetOr(f, "strategy", JNull),
                              GetOr(f, "signal_id", JNull))
  {
    var side := OrElse(GetOr(f, "side", JNull), JStr(""));
    var mode := OrElse(GetOr(f, "mode", JNull), JStr("LIVE"));
    var risk := OrElse(GetOr(f, "risk_type", JNull), JStr("USD"));
    if !side.JStr? || !mode.JStr? || !risk.JStr? then None
    else
      Some(SignalFields(GetOr(f, "symbol", JNull), Lower(side.s), Upper(mode.s), Upper(risk.s),
                        GetOr(f, "usd_amount", JNull),
                        Meta(GetOr(f, "source", JNull), GetOr(f, "strategy", JNull),
                             GetOr(f, "signal_id", JNull))))
  }

  /** A value on which `(v or default).lower()` raises: truthy but not a string. */
  predicate NotText(v: Json) {
    Truthy(v) && !v.JStr?
  }

  predicate SymbolSideOk(q: SignalFields) {
    Truthy(q.symbol) && (q.sideRaw == "buy" || q.sideRaw == "sell")
  }

  /** The guard chain, in the source's order; each guard applies only when the
      earlier ones passed. */
  function Validate(q: SignalFields, parse: string -> Option<real>): (d: Decision)
    ensures d == BadRequest(INVALID_SYMBOL_OR_SIDE) <==> !SymbolSideOk(q)
    ensures d == BadRequest(ONLY_USD) <==> SymbolSideOk(q) && q.riskType != "USD"
    ensures d.ServerError? <==> SymbolSideOk(q) && q.riskType == "USD" && PyFloat(q.usdAmount, parse).None?
    ensures d == BadRequest(NON_POSITIVE_AMOUNT)
            <==> SymbolSideOk(q) && q.riskType == "USD"
                 && PyFloat(q.usdAmount, parse).Some? && PyFloat(q.usdAmount, parse).value <= 0.0
    ensures d.Paper? <==> SymbolSideOk(q) && q.riskType == "USD"
                          && PyFloat(q.usdAmount, parse).Some? && PyFloat(q.usdAmount, parse).value > 0.0
                          && q.mode == "PAPER"
    ensures d.Dispatch? <==> SymbolSideOk(q) && q.riskType == "USD"
                             && PyFloat(q.usdAmount, parse).Some? && PyFloat(q.usdAmount, parse).value > 0.0
                             && q.mode != "PAPER"
    ensures d.Dispatch? ==>
      && d.symbol == q.symbol && d.meta == q.meta
      && d.usdAmount == PyFloat(q.usdAmount, parse).value && d.usdAmount > 0.0
      && (d.side == "BUY" <==> q.sideRaw == "buy")
      && (d.side == "SELL" <==> q.sideRaw == "sell")
  {
    if !SymbolSideOk(q) then BadRequest(INVALID_SYMBOL_OR_SIDE)
    else if q.riskType != "USD" then BadRequest(ONLY_USD)
    else
      var usd := PyFloat(q.usdAmount, parse);
      if usd.None? then ServerError  // float() raised
      else if usd.value <= 0.0 then BadRequest(NON_POSITIVE_AMOUNT)
      else if q.mode == "PAPER" then Paper
      else Dispatch(q.symbol, if q.sideRaw == "buy" then "BUY" else "SELL", usd.value, q.meta)
  }

  /** The whole guard chain on a raw payload. */
  function Decide(payload: Option<Json>, parse: string -> Option<real>): (d: Decision)
    ensures PayloadDict(payload).None? ==> d == ServerError
    ensures PayloadDict(payload).Some? && ReadFields(PayloadDict(payload).value).None? ==> d == ServerError
    ensures PayloadDict(payload).Some? && ReadFields(PayloadDict(payload).value).Some?
            ==> d == Validate(ReadFields(PayloadDict(payload).value).value, parse)
  {
    match PayloadDict(payload)
    case None => ServerError
    case Some(f) =>
      match ReadFields(f)
      case None => ServerError
      case Some(q) => Validate(q, parse)
  }

  /** api_signal: the decision, and for a live signal the master trade, whose
      exceptions also become a 500. `price`, `adjust` and `orderId` are the
      broker's answers. */
  method ApiSignal(
    fx: TradeEffects, payload: Option<Json>, parse: string -> Option<real>,
    price: Call<Option<real>>, adjust: Option<(Json, real) -> real>, orderId: Call<string>,
    ts: string, masterTradeId: string)
    returns (r: SignalReply)
    modifies fx
    ensures Decide(payload, parse).BadRequest? ==> r == Rejected(Decide(payload, parse).error) && unchanged(fx)
    ensures Decide(payload, parse).ServerError? ==> r == Failed(None) && unchanged(fx)
    ensures Decide(payload, parse).Paper? ==> r == PaperAck && unchanged(fx)
    ensures Decide(payload, parse).Dispatch? ==>
      var d := Decide(payload, parse);
      var t := MasterTradeResult(d.symbol, d.side, d.usdAmount, Some(d.meta), price, adjust, orderId, ts, masterTradeId);
      var sized := if price.Returned? then Sizing(d.symbol, d.usdAmount, price.value, adjust)
                   else Failure(BrokerRaised(price.message));
      && (t.Success? ==> r == Traded(t.value) && fx.queue == old(fx.queue) + [t.value])
      && (t.Failure? ==> r == Failed(Some(t.error)) && fx.queue == old(fx.queue))
      && (sized.Failure? ==> fx.orders == old(fx.orders))
      && (sized.Success? ==> fx.orders == old(fx.orders)
                               + [OrderRequest(d.symbol, Upper(d.side), sized.value.1, ORDER_TYPE)])
  {
    var d := Decide(payload, parse);
    match d
    case BadRequest(error) => r := Rejected(error);
    case ServerError => r := Failed(None);
    case Paper => r := PaperAck;
    case Dispatch(symbol, side, usdAmount, meta) =>
      var t := PlaceMasterTrade(fx, symbol, side, usdAmount, Some(meta), price, adjust, orderId, ts, masterTradeId);
      r := if t.Success? then Traded(t.value) else Failed(Some(t.error));
  }

  /** The symbol and side are checked first: once the fields are read, a
      payload without a symbol is a 400 "invalid symbol or side" whatever its
      risk type and amount. */
  lemma MissingSymbolRejectedFirst(fields: seq<(string, Json)>, parse: string -> Option<real>)
    requires !HasKey(fields, "symbol") && ReadFields(fields).Some?
    ensures Decide(Some(JObj(fields)), parse) == BadRequest(INVALID_SYMBOL_OR_SIDE)
  {
  }

  /** A live signal that passed validation trades, without adjust_quantity, for
      amount / price units whenever the broker quotes a positive price and
      accepts the order; the recorded side is BUY or SELL. */
  lemma DispatchedSignalTrades(
    q: SignalFields, parse: string -> Option<real>, p: real, id: string,
    ts: string, masterTradeId: string)
    requires Validate(q, parse).Dispatch? && p > 0.0
    ensures var d := Validate(q, parse);
      var t := MasterTradeResult(d.symbol, d.side, d.usdAmount, Some(d.meta), Returned(Some(p)), None, Returned(id), ts, masterTradeId);
      t.Success? && t.value.qty == d.usdAmount / p && (t.value.side == "BUY" || t.value.side == "SELL")
  {
  }
}
