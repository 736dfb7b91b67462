/** The Binance Futures execution parsing layer: translation between the venue's string
    vocabulary and the platform's enumerations, and the builders that turn venue HTTP records
    into order, trade and position reports. */
module FuturesExecution {
  import opened Failable
  import opened Text
  import opened Decimals
  import opened Enums
  import opened Reports

  /** The errors the parsing functions raise. */
  datatype ParseError =
    | KeyError(key: string)                    // `Enum[key]` found no member named `key`
    | InvalidOrderType                         // an order type the venue cannot take
    | UnrecognizedOrderStatus(status: string)  // a venue status outside the five known ones

  /** Turns a by-name lookup into the `KeyError` Python raises when it fails. */
  function FromLookup<T>(found: Option<T>, key: string): Result<T, ParseError> {
    match found
    case Some(v) => Ok(v)
    case None => Err(KeyError(key))
  }

  /** `OrderSide[s]`. */
  function ParseOrderSide(s: string): (r: Result<OrderSide, ParseError>)
    ensures r.Ok? ==> OrderSideName(r.value) == s
    ensures r.Err? ==> r.error == KeyError(s) && forall side :: OrderSideName(side) != s
  {
    FromLookup(OrderSideByName(s), s)
  }

  // ----- Order types -----

  /** The order types the venue accepts. */
  const SupportedOrderTypes: set<OrderType> :=
    {Market, Limit, StopMarket, StopLimit, MarketIfTouched, LimitIfTouched, TrailingStopMarket}

  /** The venue's aliases for a platform order type, besides its own name. */
  function VenueAliases(t: OrderType): set<string> {
    match t
    case StopLimit => {"STOP", "STOP_LOSS_LIMIT", "TAKE_PROFIT_LIMIT"}
    case LimitIfTouched => {"TAKE_PROFIT"}
    case MarketIfTouched => {"TAKE_PROFIT_MARKET"}
    case _ => {}
  }

  /** Every venue string that denotes the platform order type `t`. */
  function VenueSpellings(t: OrderType): set<string> {
    {OrderTypeName(t)} + VenueAliases(t)
  }

  /** The venue's name for a platform order type (`binance_order_type`). */
  function BinanceOrderType(t: OrderType): (r: Result<string, ParseError>)
    ensures r.Ok? <==> t in SupportedOrderTypes
    ensures r.Err? ==> r.error == InvalidOrderType
    ensures r.Ok? ==> r.value in VenueSpellings(t) && NoLowerAscii(r.value)
    ensures t == StopLimit ==> r == Ok("STOP")
    ensures t == MarketIfTouched ==> r == Ok("TAKE_PROFIT_MARKET")
    ensures t == LimitIfTouched ==> r == Ok("TAKE_PROFIT")
  {
    match t
    case Market => Ok("MARKET")
    case Limit => Ok("LIMIT")
    case StopMarket => Ok("STOP_MARKET")
    case StopLimit => Ok("STOP")
    case MarketIfTouched => Ok("TAKE_PROFIT_MARKET")
    case LimitIfTouched => Ok("TAKE_PROFIT")
    case TrailingStopMarket => Ok("TRAILING_STOP_MARKET")
    case _ => Err(InvalidOrderType)
  }

  /** The platform order type a venue string denotes (`parse_order_type`). */
  function ParseOrderType(s: string): (r: Result<OrderType, ParseError>)
    ensures r.Ok? ==> s in VenueSpellings(r.value)
    ensures r.Err? ==> r.error == KeyError(s) && forall t :: s !in VenueSpellings(t)
  {
    if s == "STOP" then Ok(StopLimit)
    else if s == "STOP_LOSS_LIMIT" then Ok(StopLimit)
    else if s == "TAKE_PROFIT" then Ok(LimitIfTouched)
    else if s == "TAKE_PROFIT_LIMIT" then Ok(StopLimit)
    else if s == "TAKE_PROFIT_MARKET" then Ok(MarketIfTouched)
    else FromLookup(OrderTypeByName(s), s)
  }

  /** The venue's aliases are not the name of any platform order type. */
  lemma AliasIsNoName(s: string, a: OrderType, x: OrderType)
    requires s in VenueAliases(a)
    ensures OrderTypeName(x) != s
  {
    match x
    case Market =>
    case Limit =>
    case StopMarket =>
    case StopLimit =>
    case MarketToLimit =>
    case MarketIfTouched =>
    case LimitIfTouched =>
    case TrailingStopMarket =>
    case TrailingStopLimit =>
  }

  /** No venue string denotes two platform order types. */
  lemma VenueSpellingsDisjoint(s: string, a: OrderType, b: OrderType)
    requires s in VenueSpellings(a) && s in VenueSpellings(b)
    ensures a == b
  {
    if s in VenueAliases(a) {
      AliasIsNoName(s, a, b);
      assert s in VenueAliases(b);
    } else if s in VenueAliases(b) {
      AliasIsNoName(s, b, a);
    } else {
      assert OrderTypeByName(s) == Some(a) && OrderTypeByName(s) == Some(b);
    }
  }

  /** `parse_order_type` decodes exactly the spellings of each order type, and nothing else. */
  lemma ParseOrderTypeSpec(s: string, t: OrderType)
    ensures ParseOrderType(s) == Ok(t) <==> s in VenueSpellings(t)
  {
    var r := ParseOrderType(s);
    if s in VenueSpellings(t) {
      assert r.Ok?;
      VenueSpellingsDisjoint(s, r.value, t);
    }
  }

  /** Several venue strings decode to the stop-limit type, so decoding is not injective. */
  lemma ParseOrderTypeManyToOne()
    ensures ParseOrderType("STOP") == Ok(StopLimit)
    ensures ParseOrderType("STOP_LOSS_LIMIT") == Ok(StopLimit)
    ensures ParseOrderType("TAKE_PROFIT_LIMIT") == Ok(StopLimit)
    ensures ParseOrderType("STOP_LIMIT") == Ok(StopLimit)
  {
    ParseOrderTypeSpec("STOP_LIMIT", StopLimit);
  }

  /** Decoding the venue's name for a supported order type gives that order type back. */
  lemma BinanceOrderTypeRoundTrip(t: OrderType)
    requires t in SupportedOrderTypes
    ensures ParseOrderType(BinanceOrderType(t).value) == Ok(t)
  {
    ParseOrderTypeSpec(BinanceOrderType(t).value, t);
  }

  /** Exactly four order types are sent under their own platform name; the other three
      supported ones are renamed. */
  lemma BinanceOrderTypeKeepsName(t: OrderType)
    ensures BinanceOrderType(t) == Ok(OrderTypeName(t))
        <==> t in {Market, Limit, StopMarket, TrailingStopMarket}
  {
  }

  // ----- Order status -----

  /** The statuses a venue order can be reported in. */
  const ReportableStatuses: set<OrderStatus> :=
    {Accepted, Canceled, PartiallyFilled, Filled, Expired}

  /** The venue's word for a reportable status: the venue calls a working order "NEW". */
  function VenueStatusName(st: OrderStatus): string {
    if st == Accepted then "NEW" else OrderStatusName(st)
  }

  /** The platform status a venue status string denotes (`parse_order_status`). */
  function ParseOrderStatus(s: string): (r: Result<OrderStatus, ParseError>)
    ensures r.Ok? ==> r.value in ReportableStatuses && VenueStatusName(r.value) == s
    ensures r.Err? ==> r.error == UnrecognizedOrderStatus(s)
    ensures r.Err? ==> forall st :: st in ReportableStatuses ==> VenueStatusName(st) != s
  {
    if s == "NEW" then Ok(Accepted)
    else if s == "CANCELED" then Ok(Canceled)
    else if s == "PARTIALLY_FILLED" then Ok(PartiallyFilled)
    else if s == "FILLED" then Ok(Filled)
    else if s == "EXPIRED" then Ok(Expired)
    else Err(UnrecognizedOrderStatus(s))
  }

  /** Decoding the venue's word for a reportable status gives that status back, and every
      successful decode is of that form. */
  lemma ParseOrderStatusSpec(s: string, st: OrderStatus)
    ensures ParseOrderStatus(s) == Ok(st) <==> st in ReportableStatuses && VenueStatusName(st) == s
  {
    if st in ReportableStatuses && VenueStatusName(st) == s {
      var r := ParseOrderStatus(s);
      assert r.Ok?;
      assert r.value in ReportableStatuses && VenueStatusName(r.value) == s;
    }
  }

  /** A venue status never decodes to a status the platform sets before or instead of venue
      acceptance. */
  lemma ParseOrderStatusNeverPreVenue(s: string)
    ensures ParseOrderStatus(s).Ok? ==>
      ParseOrderStatus(s).value !in {Initialized, Submitted, Denied, Rejected}
  {
  }

  // ----- Time in force and trigger type -----

  /** The platform time in force a venue string denotes (`parse_time_in_force`). */
  function ParseTimeInForce(s: string): (r: Result<TimeInForce, ParseError>)
    ensures r.Ok? ==> (s == "GTX" && r.value == Gtc) || TimeInForceName(r.value) == s
    ensures r.Err? ==> r.error == KeyError(s) && s != "GTX"
    ensures r.Err? ==> forall t :: TimeInForceName(t) != s
  {
    if s == "GTX" then Ok(Gtc) else FromLookup(TimeInForceByName(s), s)
  }

  /** "GTX" and the platform's own names are exactly the strings that decode, each to the
      expected time in force. */
  lemma ParseTimeInForceSpec(s: string, t: TimeInForce)
    ensures ParseTimeInForce(s) == Ok(t) <==> (s == "GTX" && t == Gtc) || TimeInForceName(t) == s
  {
    if TimeInForceName(t) == s {
      assert s != "GTX";
      assert TimeInForceByName(s) == Some(t);
    }
  }

  /** The platform trigger type a venue working type denotes (`parse_trigger_type`); total. */
  function ParseTriggerType(workingType: string): (r: TriggerType)
    ensures r in {Last, Mark, NoTrigger}
    ensures r == Last <==> workingType == "CONTRACT_PRICE"
    ensures r == Mark <==> workingType == "MARK_PRICE"
  {
    if workingType == "CONTRACT_PRICE" then Last
    else if workingType == "MARK_PRICE" then Mark
    else NoTrigger
  }

  /** The venue working type that denotes a trigger type, for the two the venue has. */
  function VenueWorkingType(t: TriggerType): Option<string> {
    match t
    case Last => Some("CONTRACT_PRICE")
    case Mark => Some("MARK_PRICE")
    case _ => None
  }

  /** Decoding inverts the venue's working types, and every other string decodes to NONE. */
  lemma ParseTriggerTypeSpec(workingType: string, t: TriggerType)
    ensures VenueWorkingType(t) == Some(workingType) ==> ParseTriggerType(workingType) == t
    ensures ParseTriggerType(workingType) == t && t != NoTrigger ==> VenueWorkingType(t) == Some(workingType)
    ensures ParseTriggerType(workingType) == NoTrigger <==>
      forall u :: VenueWorkingType(u) != Some(workingType)
  {
    if ParseTriggerType(workingType) == NoTrigger {
      forall u ensures VenueWorkingType(u) != Some(workingType) {
        match u
        case Last =>
        case Mark =>
        case _ =>
      }
    } else {
      var u := ParseTriggerType(workingType);
      assert VenueWorkingType(u) == Some(workingType);
    }
  }

  // ----- Order status report -----

  /** `parse_order_report_http`. The side, type, time in force and status are upper-cased
      before decoding; a failure in one of them is raised in that order. */
  function ParseOrderReportHttp(
    accountId: AccountId,
    instrumentId: InstrumentId,
    msg: BinanceFuturesOrder,
    reportId: ReportId,
    tsInit: int,
    millisToNanos: int -> int
  ): (r: Result<OrderStatusReport, ParseError>)
    ensures r.Ok? <==>
      && ParseOrderSide(Upper(msg.side)).Ok?
      && ParseOrderType(Upper(msg.orderType)).Ok?
      && ParseTimeInForce(Upper(msg.timeInForce)).Ok?
      && ParseOrderStatus(Upper(msg.status)).Ok?
    ensures r.Err? ==>
      (r.error in {KeyError(Upper(msg.side)), KeyError(Upper(msg.orderType)),
                   KeyError(Upper(msg.timeInForce)), UnrecognizedOrderStatus(Upper(msg.status))})
    ensures r.Ok? ==> (r.value.clientOrderId.None? <==> msg.clientOrderId == "")
    ensures r.Ok? && r.value.clientOrderId.Some? ==>
      r.value.clientOrderId.value.value == msg.clientOrderId
    ensures r.Ok? ==> r.value.venueOrderId.value == ShowInt(msg.orderId)
    ensures r.Ok? ==> OrderSideName(r.value.orderSide) == Upper(msg.side)
    ensures r.Ok? ==> Upper(msg.orderType) in VenueSpellings(r.value.orderType)
    ensures r.Ok? ==> ParseTimeInForce(Upper(msg.timeInForce)) == Ok(r.value.timeInForce)
    ensures r.Ok? ==> ParseOrderStatus(Upper(msg.status)) == Ok(r.value.orderStatus)
    ensures r.Ok? ==> r.value.orderStatus in ReportableStatuses
    ensures r.Ok? ==> r.value.price == Some(Price(msg.price))
    ensures r.Ok? ==> r.value.quantity.value == msg.origQty && r.value.filledQty.value == msg.executedQty
    ensures r.Ok? ==> (r.value.avgPx.Some? <==> IsPositive(msg.avgPrice))
    ensures r.Ok? && r.value.avgPx.Some? ==> r.value.avgPx.value == msg.avgPrice
    ensures r.Ok? ==> (r.value.triggerPrice.Some? <==> IsPositive(msg.stopPrice))
    ensures r.Ok? && r.value.triggerPrice.Some? ==> r.value.triggerPrice.value.value == msg.stopPrice
    ensures r.Ok? ==> (r.value.postOnly <==> msg.timeInForce == "GTX")
    ensures r.Ok? ==> r.value.reduceOnly == msg.reduceOnly
    ensures r.Ok? ==> r.value.triggerType == ParseTriggerType(msg.workingType)
    ensures r.Ok? ==> r.value.tsAccepted == millisToNanos(msg.time)
    ensures r.Ok? ==> r.value.tsLast == millisToNanos(msg.updateTime)
    ensures r.Ok? ==> r.value.tsInit == tsInit && r.value.reportId == reportId
    ensures r.Ok? ==> r.value.accountId == accountId && r.value.instrumentId == instrumentId
  {
    var side :- ParseOrderSide(Upper(msg.side));
    var orderType :- ParseOrderType(Upper(msg.orderType));
    var timeInForce :- ParseTimeInForce(Upper(msg.timeInForce));
    var status :- ParseOrderStatus(Upper(msg.status));
    Ok(OrderStatusReport(
      accountId := accountId,
      instrumentId := instrumentId,
      clientOrderId := if msg.clientOrderId != "" then Some(ClientOrderId(msg.clientOrderId)) else None,
      venueOrderId := VenueOrderId(ShowInt(msg.orderId)),
      orderSide := side,
      orderType := orderType,
      timeInForce := timeInForce,
      orderStatus := status,
      price := Some(Price(msg.price)),
      quantity := Quantity(msg.origQty),
      filledQty := Quantity(msg.executedQty),
      avgPx := if IsPositive(msg.avgPrice) then Some(msg.avgPrice) else None,
      postOnly := msg.timeInForce == "GTX",
      reduceOnly := msg.reduceOnly,
      reportId := reportId,
      tsAccepted := millisToNanos(msg.time),
      tsLast := millisToNanos(msg.updateTime),
      tsInit := tsInit,
      triggerPrice := if IsPositive(msg.stopPrice) then Some(Price(msg.stopPrice)) else None,
      triggerType := ParseTriggerType(msg.workingType)))
  }

  /** The first field that fails to decode decides the error: side, then type, then time in
      force, then status. */
  lemma OrderReportErrorPrecedence(
    accountId: AccountId, instrumentId: InstrumentId, msg: BinanceFuturesOrder,
    reportId: ReportId, tsInit: int, millisToNanos: int -> int)
    ensures var r := ParseOrderReportHttp(accountId, instrumentId, msg, reportId, tsInit, millisToNanos);
      && (ParseOrderSide(Upper(msg.side)).Err? ==> r == Err(KeyError(Upper(msg.side))))
      && (ParseOrderSide(Upper(msg.side)).Ok? && ParseOrderType(Upper(msg.orderType)).Err? ==>
            r == Err(KeyError(Upper(msg.orderType))))
      && (ParseOrderSide(Upper(msg.side)).Ok? && ParseOrderType(Upper(msg.orderType)).Ok?
          && ParseTimeInForce(Upper(msg.timeInForce)).Err? ==>
            r == Err(KeyError(Upper(msg.timeInForce))))
      && (ParseOrderSide(Upper(msg.side)).Ok? && ParseOrderType(Upper(msg.orderType)).Ok?
          && ParseTimeInForce(Upper(msg.timeInForce)).Ok? && ParseOrderStatus(Upper(msg.status)).Err? ==>
            r == Err(UnrecognizedOrderStatus(Upper(msg.status))))
  {
  }

  /** A post-only order is always reported good-till-cancel. */
  lemma PostOnlyIsGtc(
    accountId: AccountId, instrumentId: InstrumentId, msg: BinanceFuturesOrder,
    reportId: ReportId, tsInit: int, millisToNanos: int -> int)
    ensures var r := ParseOrderReportHttp(accountId, instrumentId, msg, reportId, tsInit, millisToNanos);
      r.Ok? && r.value.postOnly ==> r.value.timeInForce == Gtc
  {
    var r := ParseOrderReportHttp(accountId, instrumentId, msg, reportId, tsInit, millisToNanos);
    if r.Ok? && r.value.postOnly {
      UpperKeepsUpper("GTX");
    }
  }

  /** The post-only flag looks at the time in force as the venue sent it, while the time in
      force is decoded after upper-casing: a lower-case "gtx" yields a good-till-cancel order
      that is not post-only. */
  lemma LowerCaseGtxIsNotPostOnly(
    accountId: AccountId, instrumentId: InstrumentId, msg: BinanceFuturesOrder,
    reportId: ReportId, tsInit: int, millisToNanos: int -> int)
    requires msg.timeInForce == "gtx"
    ensures var r := ParseOrderReportHttp(accountId, instrumentId, msg, reportId, tsInit, millisToNanos);
      r.Ok? ==> r.value.timeInForce == Gtc && !r.value.postOnly
  {
    assert Upper("gtx") == "GTX";
  }

  /** An order submitted with the venue's name for a supported type is reported with that
      type, whatever the letter case the venue echoes it in. */
  lemma OrderReportRecoversOrderType(
    accountId: AccountId, instrumentId: InstrumentId, msg: BinanceFuturesOrder,
    reportId: ReportId, tsInit: int, millisToNanos: int -> int, t: OrderType)
    requires t in SupportedOrderTypes
    requires Upper(msg.orderType) == BinanceOrderType(t).value
    ensures var r := ParseOrderReportHttp(accountId, instrumentId, msg, reportId, tsInit, millisToNanos);
      r.Ok? ==> r.value.orderType == t
  {
    BinanceOrderTypeRoundTrip(t);
  }

  /** Distinct venue orders are reported under distinct venue order ids. */
  lemma OrderReportVenueIdsDistinct(
    accountId: AccountId, instrumentId: InstrumentId, a: BinanceFuturesOrder, b: BinanceFuturesOrder,
    reportId: ReportId, tsInit: int, millisToNanos: int -> int)
    requires a.orderId != b.orderId
    ensures var ra := ParseOrderReportHttp(accountId, instrumentId, a, reportId, tsInit, millisToNanos);
      var rb := ParseOrderReportHttp(accountId, instrumentId, b, reportId, tsInit, millisToNanos);
      ra.Ok? && rb.Ok? ==> ra.value.venueOrderId != rb.value.venueOrderId
  {
    ShowIntInjective(a.orderId, b.orderId);
  }

  // ----- Trade report -----

  /** `parse_trade_report_http`. */
  function ParseTradeReportHttp(
    accountId: AccountId,
    instrumentId: InstrumentId,
    data: BinanceFuturesTrade,
    reportId: ReportId,
    tsInit: int,
    millisToNanos: int -> int
  ): (r: Result<TradeReport, ParseError>)
    ensures r.Ok? <==> exists side :: OrderSideName(side) == Upper(data.side)
    ensures r.Err? ==> r.error == KeyError(Upper(data.side))
    ensures r.Ok? ==> OrderSideName(r.value.orderSide) == Upper(data.side)
    ensures r.Ok? ==> (r.value.liquiditySide == Maker <==> data.maker)
    ensures r.Ok? ==> (r.value.liquiditySide == Taker <==> !data.maker)
    ensures r.Ok? ==> r.value.venueOrderId.value == ShowInt(data.orderId)
    ensures r.Ok? ==> r.value.tradeId.value == ShowInt(data.id)
    ensures r.Ok? ==> r.value.lastQty.value == data.qty && r.value.lastPx.value == data.price
    ensures r.Ok? ==> r.value.commission == Money(data.commission, Currency(data.commissionAsset))
    ensures r.Ok? ==> r.value.tsEvent == millisToNanos(data.time) && r.value.tsInit == tsInit
    ensures r.Ok? ==> r.value.accountId == accountId && r.value.instrumentId == instrumentId
    ensures r.Ok? ==> r.value.reportId == reportId
  {
    var side :- ParseOrderSide(Upper(data.side));
    Ok(TradeReport(
      accountId := accountId,
      instrumentId := instrumentId,
      venueOrderId := VenueOrderId(ShowInt(data.orderId)),
      tradeId := TradeId(ShowInt(data.id)),
      orderSide := side,
      lastQty := Quantity(data.qty),
      lastPx := Price(data.price),
      commission := Money(data.commission, Currency(data.commissionAsset)),
      liquiditySide := if data.maker then Maker else Taker,
      reportId := reportId,
      tsEvent := millisToNanos(data.time),
      tsInit := tsInit))
  }

  /** Distinct venue trades are reported under distinct trade ids. */
  lemma TradeReportTradeIdsDistinct(
    accountId: AccountId, instrumentId: InstrumentId, a: BinanceFuturesTrade, b: BinanceFuturesTrade,
    reportId: ReportId, tsInit: int, millisToNanos: int -> int)
    requires a.id != b.id
    ensures var ra := ParseTradeReportHttp(accountId, instrumentId, a, reportId, tsInit, millisToNanos);
      var rb := ParseTradeReportHttp(accountId, instrumentId, b, reportId, tsInit, millisToNanos);
      ra.Ok? && rb.Ok? ==> ra.value.tradeId != rb.value.tradeId
  {
    ShowIntInjective(a.id, b.id);
  }

  // ----- Position report -----

  /** `parse_position_report_http`. */
  function ParsePositionReportHttp(
    accountId: AccountId,
    instrumentId: InstrumentId,
    data: BinanceFuturesPosition,
    reportId: ReportId,
    tsInit: int
  ): (r: PositionStatusReport)
    ensures r.positionSide == Long <==> IsPositive(data.positionAmt)
    ensures r.positionSide == Short <==> !IsPositive(data.positionAmt)
    ensures r.quantity.value.coefficient >= 0
    ensures r.quantity.value.exponent == data.positionAmt.exponent
    ensures r.tsLast == tsInit && r.tsInit == tsInit
    ensures r.accountId == accountId && r.instrumentId == instrumentId && r.reportId == reportId
  {
    var netSize := data.positionAmt;
    PositionStatusReport(
      accountId := accountId,
      instrumentId := instrumentId,
      positionSide := if IsPositive(netSize) then Long else Short,
      quantity := Quantity(Abs(netSize)),
      reportId := reportId,
      tsLast := tsInit,
      tsInit := tsInit)
  }

  /** The signed net position a position report describes. */
  function SignedQuantity(report: PositionStatusReport): Decimal {
    if report.positionSide == Long then report.quantity.value else Negate(report.quantity.value)
  }

  /** Side and quantity together lose nothing: the venue's signed amount is recovered. */
  lemma PositionReportRecoversAmount(
    accountId: AccountId, instrumentId: InstrumentId, data: BinanceFuturesPosition,
    reportId: ReportId, tsInit: int)
    ensures SignedQuantity(ParsePositionReportHttp(accountId, instrumentId, data, reportId, tsInit))
      == data.positionAmt
  {
  }

  /** The reported quantity is the magnitude of the venue's amount. */
  lemma PositionQuantityIsMagnitude(
    accountId: AccountId, instrumentId: InstrumentId, data: BinanceFuturesPosition,
    reportId: ReportId, tsInit: int)
    ensures var q := ParsePositionReportHttp(accountId, instrumentId, data, reportId, tsInit).quantity.value;
      && Value(q) >= 0.0
      && (Value(q) == Value(data.positionAmt) || Value(q) == -Value(data.positionAmt))
  {
    AbsValue(data.positionAmt);
  }
}
