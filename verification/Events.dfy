/** The native source event (event.py) and the broker's own records (models/), as values.
    Timestamps are integers; JSON scopes are sequences of their components. */
module Events {
  import opened Wrappers
  import opened Decimals

  type Scope = seq<string>

  datatype Kind = RequestSeen | Accepted | Rejected | OrderSeen | FillSeen | PositionSeen | SignalSeen | AccountSeen
  datatype Action = Create | Edit | Cancel | Close | Observe
  datatype Effect = OpenEffect | CloseEffect | UnknownEffect

  datatype Event = Event(
    machine: string, eventId: string, connection: string, account: string,
    orderId: string, positionId: string, executionId: string, requestId: string,
    emittedAt: int, kind: Kind, action: Action, source: string, sourceLabel: string, status: string,
    snapshot: bool, symbol: string, side: string, orderType: string,
    quantity: Decimal, effect: Effect, price: Decimal, sl: Decimal, tp: Decimal, bracketsAbsolute: bool)
  {
    function Scope(): Scope {
      [machine, connection, account]
    }
  }

  /** One destination instrument row; a field the broker left out is None. */
  datatype Instrument = Instrument(
    symbol: string, pricePrecision: Option<int>,
    volumeMin: Option<Decimal>, volumeMax: Option<Decimal>, volumeStep: Option<Decimal>,
    closeOnly: bool, longOnly: bool)

  datatype Order = Order(id: string, symbol: string, side: string, orderType: string)

  /** An open position as the broker lists it; orderId is the order that opened it, when reported. */
  datatype Position = Position(
    id: string, symbol: string, side: string, volume: Decimal, openPrice: Decimal,
    orderId: Option<string>, openTime: Option<string>, openMillis: Option<int>)

  /** One closing execution from the broker's history. */
  datatype ClosedTrade = ClosedTrade(
    id: string, symbol: string, side: string, volume: Decimal, openPrice: Decimal,
    openTime: Option<string>, time: string, uid: Option<string>, closingOrderId: Option<string>)
}
