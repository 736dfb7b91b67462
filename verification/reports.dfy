/** The raw venue records the parsing layer reads and the platform report records it builds.
    Identifier, price, quantity and money types are value wrappers: their own constructors and
    validation are not part of this model. */
module Reports {
  import opened Failable
  import opened Decimals
  import opened Enums

  datatype AccountId = AccountId(value: string)
  datatype InstrumentId = InstrumentId(value: string)
  datatype ClientOrderId = ClientOrderId(value: string)
  datatype VenueOrderId = VenueOrderId(value: string)
  datatype TradeId = TradeId(value: string)

  /** A UUID4 report identifier, supplied by the caller. */
  datatype ReportId = ReportId(value: string)

  /** `Price.from_str`: a price carrying the decimal it was read from. */
  datatype Price = Price(value: Decimal)

  /** `Quantity.from_str`: a quantity carrying the decimal it was read from. */
  datatype Quantity = Quantity(value: Decimal)

  datatype Currency = Currency(code: string)

  datatype Money = Money(amount: Decimal, currency: Currency)

  /** An order as Binance Futures returns it over HTTP. The decimal fields arrive as strings and
      are held here already converted by `Decimal(...)`; `orderType` is the venue's `type`. */
  datatype BinanceFuturesOrder = BinanceFuturesOrder(
    clientOrderId: string,
    orderId: int,
    side: string,
    orderType: string,
    timeInForce: string,
    status: string,
    price: Decimal,
    origQty: Decimal,
    executedQty: Decimal,
    avgPrice: Decimal,
    stopPrice: Decimal,
    reduceOnly: bool,
    time: int,
    updateTime: int,
    workingType: string)

  /** One account trade as Binance Futures returns it over HTTP. */
  datatype BinanceFuturesTrade = BinanceFuturesTrade(
    orderId: int,
    id: int,
    side: string,
    qty: Decimal,
    price: Decimal,
    commission: Decimal,
    commissionAsset: string,
    maker: bool,
    time: int)

  /** One position as Binance Futures returns it over HTTP; only the signed amount is read. */
  datatype BinanceFuturesPosition = BinanceFuturesPosition(positionAmt: Decimal)

  datatype OrderStatusReport = OrderStatusReport(
    accountId: AccountId,
    instrumentId: InstrumentId,
    clientOrderId: Option<ClientOrderId>,
    venueOrderId: VenueOrderId,
    orderSide: OrderSide,
    orderType: OrderType,
    timeInForce: TimeInForce,
    orderStatus: OrderStatus,
    price: Option<Price>,
    quantity: Quantity,
    filledQty: Quantity,
    avgPx: Option<Decimal>,
    postOnly: bool,
    reduceOnly: bool,
    reportId: ReportId,
    tsAccepted: int,
    tsLast: int,
    tsInit: int,
    triggerPrice: Option<Price>,
    triggerType: TriggerType)

  datatype TradeReport = TradeReport(
    accountId: AccountId,
    instrumentId: InstrumentId,
    venueOrderId: VenueOrderId,
    tradeId: TradeId,
    orderSide: OrderSide,
    lastQty: Quantity,
    lastPx: Price,
    commission: Money,
    liquiditySide: LiquiditySide,
    reportId: ReportId,
    tsEvent: int,
    tsInit: int)

  datatype PositionStatusReport = PositionStatusReport(
    accountId: AccountId,
    instrumentId: InstrumentId,
    positionSide: PositionSide,
    quantity: Quantity,
    reportId: ReportId,
    tsLast: int,
    tsInit: int)
}
