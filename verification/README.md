# Binance Futures execution parsing — a Dafny model

This project models the Binance Futures execution parsing layer of the NautilusTrader
adapter. The layer translates between the venue's string vocabulary and the platform's
enumerations:

- `binance_order_type` turns a platform order type into the venue's name for it.
- `parse_order_type`, `parse_order_status`, `parse_time_in_force` and `parse_trigger_type` decode
  venue strings into platform enumerations.
- `parse_order_report_http`, `parse_trade_report_http` and `parse_position_report_http` turn the
  venue's HTTP records into order status, trade and position status reports.

Files:

- `failable.dfy`: `Option` and `Result`. Python exceptions become `Err` values that carry a
  `ParseError`.
- `text.dfy`: `str.upper()` for ASCII and `str(n)` for integers. It proves that upper-casing is
  idempotent and that integer formatting is injective, using a parse-back round trip.
- `decimals.dfy`: `Decimal` as a coefficient and an exponent, with comparison against zero and
  `abs`. Both are proved to agree with the rational value the decimal denotes.
- `enums.dfy`: the platform enumerations and their member names. It also has Python's
  `Enum[name]` lookup, which is a case-sensitive search by name.
- `reports.dfy`: the venue records and the report records.
- `execution.dfy`: the parsing functions themselves, with their properties.

The platform's `model/enums` module is not part of this model. The member lists used here are assumed
to be those of the platform release the file belongs to:

- `OrderSide` has BUY and SELL.
- `OrderType` has MARKET, LIMIT, STOP_MARKET, STOP_LIMIT, MARKET_TO_LIMIT, MARKET_IF_TOUCHED,
  LIMIT_IF_TOUCHED, TRAILING_STOP_MARKET and TRAILING_STOP_LIMIT.
- `OrderStatus` has twelve members, from INITIALIZED to FILLED.
- `TimeInForce` has GTC, IOC, FOK, GTD, DAY, AT_THE_OPEN and AT_THE_CLOSE.
- `TriggerType` has NONE, DEFAULT, BID_ASK, LAST, DOUBLE_LAST, DOUBLE_BID_ASK, LAST_OR_BID_ASK,
  MID_POINT, MARK and INDEX.
- `PositionSide` has FLAT, LONG and SHORT.
- `LiquiditySide` has NONE, MAKER and TAKER.

Two things follow from the code as written, and the model keeps them:

- In the order report, the post-only flag compares the venue's `timeInForce` as sent, while the
  time in force itself is decoded after upper-casing. A lower-case `"gtx"` therefore gives a
  good-till-cancel order that is not post-only (`LowerCaseGtxIsNotPostOnly`).
- `parse_trigger_type` marks its fallback branch as a design-time error, but it returns `NONE`
  instead of raising. The model is total, as the code is.

## Model

| member | source | states |
|---|---|---|
| FuturesExecution.BinanceOrderType | nautilus_trader/adapters/binance/futures/parsing/execution.py:44-60 | succeeds exactly for the seven supported order types and fails with the invalid-order-type error for every other type. It sends STOP_LIMIT as "STOP", MARKET_IF_TOUCHED as "TAKE_PROFIT_MARKET" and LIMIT_IF_TOUCHED as "TAKE_PROFIT". The name it returns is one the decoder maps back to that type, and it has no lower-case letters |
| FuturesExecution.BinanceOrderTypeKeepsName | nautilus_trader/adapters/binance/futures/parsing/execution.py:44-60 | the venue name equals the platform name exactly for MARKET, LIMIT, STOP_MARKET and TRAILING_STOP_MARKET; the other supported types are renamed |
| FuturesExecution.BinanceOrderTypeRoundTrip | nautilus_trader/adapters/binance/futures/parsing/execution.py:44-75 | for every supported order type, decoding the venue name gives back the original type |
| FuturesExecution.ParseOrderType | nautilus_trader/adapters/binance/futures/parsing/execution.py:63-75 | a decoded type is one the input string spells (its own name or a venue alias); on failure the error is KeyError of the input, and the input spells no order type at all |
| FuturesExecution.VenueSpellingsDisjoint | nautilus_trader/adapters/binance/futures/parsing/execution.py:63-75 | no venue string spells two different order types, so decoding is a function of the string |
| FuturesExecution.ParseOrderTypeSpec | nautilus_trader/adapters/binance/futures/parsing/execution.py:63-75 | for every string and type, decoding yields that type if and only if the string is one of the type's spellings |
| FuturesExecution.ParseOrderTypeManyToOne | nautilus_trader/adapters/binance/futures/parsing/execution.py:64-71 | "STOP", "STOP_LOSS_LIMIT", "TAKE_PROFIT_LIMIT" and the enum name "STOP_LIMIT" all decode to STOP_LIMIT |
| FuturesExecution.ParseOrderSide | nautilus_trader/adapters/binance/futures/parsing/execution.py:124 | a decoded side's name equals the input; on failure the error is KeyError of the input, and no side has that name |
| FuturesExecution.ParseOrderStatus | nautilus_trader/adapters/binance/futures/parsing/execution.py:78-90 | a decoded status is one of ACCEPTED, CANCELED, PARTIALLY_FILLED, FILLED and EXPIRED, and its venue word is the input; any other input fails with the unrecognized-status error naming the input |
| FuturesExecution.ParseOrderStatusSpec | nautilus_trader/adapters/binance/futures/parsing/execution.py:78-90 | decoding yields a status if and only if the status is reportable and the input is its venue word ("NEW" for ACCEPTED, its own name otherwise) |
| FuturesExecution.ParseOrderStatusNeverPreVenue | nautilus_trader/adapters/binance/futures/parsing/execution.py:78-90 | no venue status decodes to INITIALIZED, SUBMITTED, DENIED or REJECTED |
| FuturesExecution.ParseTimeInForce | nautilus_trader/adapters/binance/futures/parsing/execution.py:93-97 | "GTX" decodes to GTC and any other decoded input is the name of its result; a failure is KeyError of an input that is not "GTX" and names no time in force |
| FuturesExecution.ParseTimeInForceSpec | nautilus_trader/adapters/binance/futures/parsing/execution.py:93-97 | for every string and time in force, decoding yields it if and only if the string is "GTX" and the result GTC, or the string is its name |
| FuturesExecution.ParseTriggerType | nautilus_trader/adapters/binance/futures/parsing/execution.py:100-106 | total; the result is LAST exactly for "CONTRACT_PRICE", MARK exactly for "MARK_PRICE", and NONE otherwise |
| FuturesExecution.ParseTriggerTypeSpec | nautilus_trader/adapters/binance/futures/parsing/execution.py:100-106 | decoding inverts the venue's two working types ("CONTRACT_PRICE" for LAST, "MARK_PRICE" for MARK), and a string decodes to NONE exactly when it is neither |
| FuturesExecution.ParseOrderReportHttp | nautilus_trader/adapters/binance/futures/parsing/execution.py:109-140 | succeeds if and only if the upper-cased side, type, time in force and status all decode, and otherwise fails with one of their errors. The client order id is absent exactly when the venue string is empty. The price is always present. The average price is present exactly when avgPrice > 0, and the trigger price exactly when stopPrice > 0. Post-only holds exactly when the raw timeInForce is "GTX". The side, time in force and status are the decodings of the upper-cased venue strings, the type is one the upper-cased venue type spells, the status is reportable, and the remaining fields are carried over |
| FuturesExecution.OrderReportErrorPrecedence | nautilus_trader/adapters/binance/futures/parsing/execution.py:124-127 | the first field that fails to decode decides the error: side, then order type, then time in force, then status (the unrecognized-status error) |
| FuturesExecution.PostOnlyIsGtc | nautilus_trader/adapters/binance/futures/parsing/execution.py:126-132 | a report that is post-only has time in force GTC |
| FuturesExecution.LowerCaseGtxIsNotPostOnly | nautilus_trader/adapters/binance/futures/parsing/execution.py:126-132 | a venue time in force of "gtx" is reported as GTC but not post-only |
| FuturesExecution.OrderReportRecoversOrderType | nautilus_trader/adapters/binance/futures/parsing/execution.py:125 | an order whose venue type is, in any letter case, the venue name of a supported type is reported with that type |
| FuturesExecution.OrderReportVenueIdsDistinct | nautilus_trader/adapters/binance/futures/parsing/execution.py:123 | reports of orders with different venue order numbers carry different venue order ids |
| FuturesExecution.ParseTradeReportHttp | nautilus_trader/adapters/binance/futures/parsing/execution.py:143-163 | succeeds if and only if the upper-cased side names an order side, and otherwise fails with KeyError of it. The liquidity side is MAKER exactly when the maker flag is set, and TAKER exactly when it is not. The ids are the decimal renderings of the venue numbers, and quantity, price and commission are carried over |
| FuturesExecution.TradeReportTradeIdsDistinct | nautilus_trader/adapters/binance/futures/parsing/execution.py:154 | reports of trades with different venue trade numbers carry different trade ids |
| FuturesExecution.ParsePositionReportHttp | nautilus_trader/adapters/binance/futures/parsing/execution.py:166-182 | the side is LONG exactly when positionAmt > 0 and SHORT otherwise, so a zero amount is SHORT and never FLAT. The quantity is non-negative and keeps the amount's exponent (for amounts that fit the default decimal context). ts_last equals ts_init |
| FuturesExecution.PositionReportRecoversAmount | nautilus_trader/adapters/binance/futures/parsing/execution.py:173-178 | side and quantity together give back the venue's signed amount exactly, for amounts that fit the default decimal context |
| FuturesExecution.PositionQuantityIsMagnitude | nautilus_trader/adapters/binance/futures/parsing/execution.py:178 | the reported quantity's value is non-negative and equals the amount's value or its negation |
| Enums.FindByName | nautilus_trader/adapters/binance/futures/parsing/execution.py:75 | a found member is in the list and has the requested name; when nothing is found, no member in the list has that name |
| Enums.OrderTypeByName | nautilus_trader/adapters/binance/futures/parsing/execution.py:75 | finds an order type if and only if the key is that type's name |
| Enums.TimeInForceByName | nautilus_trader/adapters/binance/futures/parsing/execution.py:97 | finds a time in force if and only if the key is that member's name |
| Enums.OrderSideByName | nautilus_trader/adapters/binance/futures/parsing/execution.py:124 | finds an order side if and only if the key is that side's name |
| Text.Upper | nautilus_trader/adapters/binance/futures/parsing/execution.py:124-127 | keeps the length, leaves no ASCII lower-case letter, turns each lower-case letter into its capital and keeps every other character |
| Text.UpperIdempotent | nautilus_trader/adapters/binance/futures/parsing/execution.py:124-127 | upper-casing an upper-cased string changes nothing |
| Text.UpperIgnoresCase | nautilus_trader/adapters/binance/futures/parsing/execution.py:124-127 | strings that differ only in letter case upper-case to the same string |
| Text.ShowInt | nautilus_trader/adapters/binance/futures/parsing/execution.py:123 | renders a non-negative number as decimal digits without leading zeros that read back as the number, and a negative number as '-' followed by the digits of its magnitude, also without leading zeros |
| Text.ParseShowNat | nautilus_trader/adapters/binance/futures/parsing/execution.py:123 | reading the decimal digits back gives the original natural number |
| Text.ShowIntInjective | nautilus_trader/adapters/binance/futures/parsing/execution.py:153-154 | different integers render as different strings |
| Decimals.IsPositive | nautilus_trader/adapters/binance/futures/parsing/execution.py:131-138 | `d > 0` (here on the average and stop prices, and on the position amount at line 177) holds exactly when the rational value the decimal denotes is positive |
| Decimals.IsPositiveMeansValuePositive | nautilus_trader/adapters/binance/futures/parsing/execution.py:177 | the comparison `> 0` on a decimal holds exactly when the rational value it denotes is positive |
| Decimals.Abs | nautilus_trader/adapters/binance/futures/parsing/execution.py:178 | for a decimal that fits the default context, keeps the exponent and gives a non-negative coefficient equal to the original or its negation |
| Decimals.AbsValue | nautilus_trader/adapters/binance/futures/parsing/execution.py:178 | the value of `abs(d)` is non-negative and equals the value of d or its negation |

## Left out

- Decimal strings: the venue sends decimal fields as strings, converted by `Decimal(...)`. The
  model takes them already converted. The decimal literal syntax, NaN and Infinity, and the
  error raised on a malformed string are not modelled. A negative zero behaves like zero in
  every use made here (`> 0` and `abs`), so it is not distinguished.
- `Price.from_str`, `Quantity.from_str`, `Money`, `Currency.from_str`, the identifier types,
  `UUID4` and the report classes: their source is not part of this model. They are value
  wrappers here, so their own validation (precision limits, ranges, the non-negativity a
  `Quantity` demands of `origQty` and `executedQty`) is not modelled.
- `millis_to_nanos` is not part of this model. It is a function parameter of the report
  builders, and the reports carry its result unchanged.
- Text.Upper: models `str.upper()` for ASCII letters only. Python's full Unicode upper-casing
  differs in three ways that are not modelled. It upper-cases non-ASCII letters ("é" becomes
  "É"), which changes the key of a KeyError. It maps a few non-ASCII characters to ASCII, such as
  dotless i to "I" and long s to "S". It expands some characters into several ("ß" becomes "SS"
  and the ligature "ﬁ" becomes "FI"), so Python decodes "ﬁlled" as FILLED and does not keep the
  length.
- Decimals.Abs: Python's `abs()` on a `Decimal` works under the default decimal context. It
  rounds the result to 28 significant digits and raises Overflow above the context's largest
  exponent. The model keeps every digit and the exponent and never fails. Amounts that large
  also exceed the precision `Quantity` accepts, whose limit is not modelled either.
- FuturesExecution.ParsePositionReportHttp: keeps the amount's exponent and digits only for
  amounts that fit the default decimal context, for the reason given under Decimals.Abs. It
  also has no error for a missing `positionAmt` key or a malformed decimal string.
- FuturesExecution.PositionReportRecoversAmount: the exact recovery holds of the source only for
  amounts that fit the default decimal context, for the reason given under Decimals.Abs.
- FuturesExecution.PositionQuantityIsMagnitude: likewise holds of the source only for amounts
  that fit the default decimal context.
- FuturesExecution.ParseOrderReportHttp: has no error for a malformed decimal string or for what
  the `Price`, `Quantity` and `OrderStatusReport` constructors reject, for the reasons above.
- FuturesExecution.ParseTradeReportHttp: has no error for a missing dictionary key or for what
  the `Quantity`, `Price`, `Money` and `Currency` constructors reject.
- The trade and position records are Python dictionaries. They are modelled as typed records,
  so the `KeyError` of a missing key is not modelled.
- `binance_order_type` takes an order book `Order` and reads only its `type`. The model takes
  the order type directly.
- The msgspec schemas of the WebSocket user-data messages are field lists without behaviour,
  and one of their fields is floating point. They are not modelled.
- The Betfair and sandbox integration tests exercise network clients, an event loop and code
  that is not part of this model. They are not modelled.
