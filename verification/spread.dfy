/** The spread line between the two sides of the book: best ask minus best
    bid, and that difference as a percentage of the best bid. Both are taken
    from index 0 of each side, and only when both sides have a level. */
module SpreadView {
  import opened MarketTypes
  import opened Folds

  /** `percent` is `None` when the best bid is 0: the division has no
      finite value then. */
  datatype SpreadDisplay = NoSpreadData | Spread(amount: real, percent: Option<real>)

  function SpreadOf(book: OrderBook): (r: SpreadDisplay)
    ensures r.Spread? <==> |book.asks| > 0 && |book.bids| > 0
    ensures r.Spread? ==> book.bids[0].price + r.amount == book.asks[0].price
    ensures r.Spread? ==> (r.percent.Some? <==> book.bids[0].price != 0.0)
    ensures r.Spread? && r.percent.Some? ==>
              r.percent.value * book.bids[0].price == r.amount * 100.0
  {
    if |book.asks| > 0 && |book.bids| > 0 then
      var ask, bid := book.asks[0].price, book.bids[0].price;
      var d := ask - bid;
      Spread(d, if bid != 0.0 then Some(d / bid * 100.0) else None)
    else
      NoSpreadData
  }

  function LevelPrices(levels: seq<PriceLevel>): (r: seq<real>)
  {
    Project(levels, (l: PriceLevel) => l.price)
  }

  /** Asks strictly ascending and bids strictly descending by price. */
  predicate BestFirst(book: OrderBook)
  {
    && (forall i :: 0 < i < |book.asks| ==> book.asks[i - 1].price < book.asks[i].price)
    && (forall i :: 0 < i < |book.bids| ==> book.bids[i].price < book.bids[i - 1].price)
  }

  /** When the engine delivers both sides best-first, the index-0 spread is
      the lowest ask minus the highest bid. */
  lemma SpreadIsBestAskMinusBestBid(book: OrderBook)
    requires BestFirst(book)
    requires |book.asks| > 0 && |book.bids| > 0
    ensures SpreadOf(book).amount == MinOf(LevelPrices(book.asks)) - MaxOf(LevelPrices(book.bids))
  {
    MinOfAscendingIsHead(LevelPrices(book.asks));
    MaxOfDescendingIsHead(LevelPrices(book.bids));
  }

  /** A bid at 100 and an ask at 101 give a spread of 1, which is 1 percent. */
  lemma SpreadExample()
    ensures var book := OrderBook([PriceLevel(100.0, [])], [PriceLevel(101.0, [])]);
            SpreadOf(book) == Spread(1.0, Some(1.0))
  {
  }
}
