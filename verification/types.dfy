/** The records exchanged between the trade screen and the matching engine,
    as the screen reads them. Prices and amounts are exact decimals (`real`). */
module MarketTypes {

  /** The conventional Some/None datatype, for values a response may omit. */
  datatype Option<+T> = None | Some(value: T) {

    /** The carried value, or `default` when there is none. */
    function GetOr(default: T): (r: T) {
      match this
      case Some(v) => v
      case None => default
    }
  }

  datatype Side = Buy | Sell

  /** One resting order of a price level; the screen reads only its amount. */
  datatype Order = Order(amount: real)

  /** A price level as the engine delivers it: one price and the orders
      resting at it, in arrival order. */
  datatype PriceLevel = PriceLevel(price: real, orders: seq<Order>)

  /** The book as the engine delivers it; each side is expected best-first. */
  datatype OrderBook = OrderBook(bids: seq<PriceLevel>, asks: seq<PriceLevel>)

  /** One executed trade, with the fields the screen reads. */
  datatype Trade = Trade(
    tradeId: string,
    buyOrderId: string,
    sellOrderId: string,
    buyerAccountId: string,
    price: real,
    amount: real)

  const EmptyBook := OrderBook([], [])
}
