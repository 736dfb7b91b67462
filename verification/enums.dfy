/** The platform enumerations the Binance Futures parsing layer produces, each with its member
    names. Python's `Enum[name]` looks a member up by its exact, case-sensitive name and raises
    `KeyError` when there is none; `FindByName` and the `...ByName` functions model that lookup. */
module Enums {
  import opened Failable

  datatype OrderSide = Buy | Sell

  datatype OrderType =
    | Market
    | Limit
    | StopMarket
    | StopLimit
    | MarketToLimit
    | MarketIfTouched
    | LimitIfTouched
    | TrailingStopMarket
    | TrailingStopLimit

  datatype OrderStatus =
    | Initialized
    | Denied
    | Submitted
    | Accepted
    | Rejected
    | Canceled
    | Expired
    | Triggered
    | PendingUpdate
    | PendingCancel
    | PartiallyFilled
    | Filled

  datatype TimeInForce = Gtc | Ioc | Fok | Gtd | Day | AtTheOpen | AtTheClose

  datatype TriggerType =
    | NoTrigger
    | Default
    | BidAsk
    | Last
    | DoubleLast
    | DoubleBidAsk
    | LastOrBidAsk
    | MidPoint
    | Mark
    | Index

  datatype PositionSide = Flat | Long | Short

  datatype LiquiditySide = NoLiquiditySide | Maker | Taker

  /** A member of `members` whose name is `key`, if there is one. */
  function FindByName<T(==)>(members: seq<T>, name: T -> string, key: string): (r: Option<T>)
    ensures r.Some? ==> r.value in members && name(r.value) == key
    ensures r.None? ==> forall m :: m in members ==> name(m) != key
  {
    if |members| == 0 then None
    else if name(members[0]) == key then Some(members[0])
    else FindByName(members[1..], name, key)
  }

  /** When names are distinct and every member is listed, the lookup by name finds exactly the
      member of that name. */
  lemma FindByNameExact<T>(members: seq<T>, name: T -> string, key: string, t: T)
    requires t in members
    requires forall a, b :: a in members && b in members && name(a) == name(b) ==> a == b
    ensures FindByName(members, name, key) == Some(t) <==> name(t) == key
  {
  }

  // ----- OrderSide -----

  function OrderSideName(s: OrderSide): string {
    match s
    case Buy => "BUY"
    case Sell => "SELL"
  }

  const AllOrderSides: seq<OrderSide> := [Buy, Sell]

  lemma OrderSideListed(x: OrderSide)
    ensures x in AllOrderSides
  {
    match x
    case Buy => assert AllOrderSides[0] == Buy;
    case Sell => assert AllOrderSides[1] == Sell;
  }

  /** `OrderSide[key]`. */
  function OrderSideByName(key: string): (r: Option<OrderSide>)
    ensures forall s :: r == Some(s) <==> OrderSideName(s) == key
  {
    forall s ensures FindByName(AllOrderSides, OrderSideName, key) == Some(s) <==> OrderSideName(s) == key {
      OrderSideListed(s);
      FindByNameExact(AllOrderSides, OrderSideName, key, s);
    }
    FindByName(AllOrderSides, OrderSideName, key)
  }

  // ----- OrderType -----

  function OrderTypeName(t: OrderType): string {
    match t
    case Market => "MARKET"
    case Limit => "LIMIT"
    case StopMarket => "STOP_MARKET"
    case StopLimit => "STOP_LIMIT"
    case MarketToLimit => "MARKET_TO_LIMIT"
    case MarketIfTouched => "MARKET_IF_TOUCHED"
    case LimitIfTouched => "LIMIT_IF_TOUCHED"
    case TrailingStopMarket => "TRAILING_STOP_MARKET"
    case TrailingStopLimit => "TRAILING_STOP_LIMIT"
  }

  const AllOrderTypes: seq<OrderType> :=
    [Market, Limit, StopMarket, StopLimit, MarketToLimit, MarketIfTouched, LimitIfTouched,
     TrailingStopMarket, TrailingStopLimit]

  lemma OrderTypeListed(x: OrderType)
    ensures x in AllOrderTypes
  {
    match x
    case Market => assert AllOrderTypes[0] == Market;
    case Limit => assert AllOrderTypes[1] == Limit;
    case StopMarket => assert AllOrderTypes[2] == StopMarket;
    case StopLimit => assert AllOrderTypes[3] == StopLimit;
    case MarketToLimit => assert AllOrderTypes[4] == MarketToLimit;
    case MarketIfTouched => assert AllOrderTypes[5] == MarketIfTouched;
    case LimitIfTouched => assert AllOrderTypes[6] == LimitIfTouched;
    case TrailingStopMarket => assert AllOrderTypes[7] == TrailingStopMarket;
    case TrailingStopLimit => assert AllOrderTypes[8] == TrailingStopLimit;
  }

  /** `OrderType[key]`. */
  function OrderTypeByName(key: string): (r: Option<OrderType>)
    ensures forall t :: r == Some(t) <==> OrderTypeName(t) == key
  {
    forall t ensures FindByName(AllOrderTypes, OrderTypeName, key) == Some(t) <==> OrderTypeName(t) == key {
      OrderTypeListed(t);
      FindByNameExact(AllOrderTypes, OrderTypeName, key, t);
    }
    FindByName(AllOrderTypes, OrderTypeName, key)
  }

  // ----- OrderStatus -----

  function OrderStatusName(s: OrderStatus): string {
    match s
    case Initialized => "INITIALIZED"
    case Denied => "DENIED"
    case Submitted => "SUBMITTED"
    case Accepted => "ACCEPTED"
    case Rejected => "REJECTED"
    case Canceled => "CANCELED"
    case Expired => "EXPIRED"
    case Triggered => "TRIGGERED"
    case PendingUpdate => "PENDING_UPDATE"
    case PendingCancel => "PENDING_CANCEL"
    case PartiallyFilled => "PARTIALLY_FILLED"
    case Filled => "FILLED"
  }

  // ----- TimeInForce -----

  function TimeInForceName(t: TimeInForce): string {
    match t
    case Gtc => "GTC"
    case Ioc => "IOC"
    case Fok => "FOK"
    case Gtd => "GTD"
    case Day => "DAY"
    case AtTheOpen => "AT_THE_OPEN"
    case AtTheClose => "AT_THE_CLOSE"
  }

  const AllTimesInForce: seq<TimeInForce> := [Gtc, Ioc, Fok, Gtd, Day, AtTheOpen, AtTheClose]

  lemma TimeInForceListed(x: TimeInForce)
    ensures x in AllTimesInForce
  {
    match x
    case Gtc => assert AllTimesInForce[0] == Gtc;
    case Ioc => assert AllTimesInForce[1] == Ioc;
    case Fok => assert AllTimesInForce[2] == Fok;
    case Gtd => assert AllTimesInForce[3] == Gtd;
    case Day => assert AllTimesInForce[4] == Day;
    case AtTheOpen => assert AllTimesInForce[5] == AtTheOpen;
    case AtTheClose => assert AllTimesInForce[6] == AtTheClose;
  }

  /** `TimeInForce[key]`. */
  function TimeInForceByName(key: string): (r: Option<TimeInForce>)
    ensures forall t :: r == Some(t) <==> TimeInForceName(t) == key
  {
    forall t ensures FindByName(AllTimesInForce, TimeInForceName, key) == Some(t) <==> TimeInForceName(t) == key {
      TimeInForceListed(t);
      FindByNameExact(AllTimesInForce, TimeInForceName, key, t);
    }
    FindByName(AllTimesInForce, TimeInForceName, key)
  }
}
