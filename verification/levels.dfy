/** The per-level rows of the order-book view: each level's size (the sum of
    its orders' amounts) and total (price times size). Asks are listed in
    reverse of the received order, so the best ask sits next to the spread
    line; bids are listed as received. */
module LevelView {
  import opened MarketTypes
  import opened Folds

  /** One displayed row: price, size and total of a level. */
  datatype LevelRow = LevelRow(price: real, size: real, total: real)

  /** What a side of the book shows: a placeholder when it is empty, rows otherwise. */
  datatype SideView = NoOrders | Rows(rows: seq<LevelRow>)

  function OrderAmounts(orders: seq<Order>): (r: seq<real>)
  {
    Project(orders, (o: Order) => o.amount)
  }

  /** The row of a level, its size folded from the left over the orders. */
  function RowOf(level: PriceLevel): (r: LevelRow)
    ensures r.price == level.price
    ensures r.size == Sum(OrderAmounts(level.orders))
    ensures r.total == level.price * Sum(OrderAmounts(level.orders))
  {
    var size := FoldSum(0.0, OrderAmounts(level.orders));
    FoldSumIsSum(0.0, OrderAmounts(level.orders));
    LevelRow(level.price, size, level.price * size)
  }

  function Reverse<T>(s: seq<T>): (r: seq<T>)
    ensures |r| == |s|
    ensures forall i :: 0 <= i < |s| ==> r[i] == s[|s| - 1 - i]
  {
    seq(|s|, i requires 0 <= i < |s| => s[|s| - 1 - i])
  }

  function RowsOf(levels: seq<PriceLevel>): (r: seq<LevelRow>)
    ensures |r| == |levels|
    ensures forall i :: 0 <= i < |levels| ==> r[i] == RowOf(levels[i])
  {
    seq(|levels|, i requires 0 <= i < |levels| => RowOf(levels[i]))
  }

  /** The ask side: rows of the ask levels in reverse received order. */
  function AskView(book: OrderBook): (r: SideView)
    ensures r.NoOrders? <==> |book.asks| == 0
    ensures r.Rows? ==> |r.rows| == |book.asks|
    ensures r.Rows? ==> forall i :: 0 <= i < |book.asks| ==>
              r.rows[i] == RowOf(book.asks[|book.asks| - 1 - i])
    ensures r.Rows? ==> r.rows[|r.rows| - 1] == RowOf(book.asks[0])
  {
    if |book.asks| > 0 then Rows(Reverse(RowsOf(book.asks))) else NoOrders
  }

  /** The bid side: rows of the bid levels in received order. */
  function BidView(book: OrderBook): (r: SideView)
    ensures r.NoOrders? <==> |book.bids| == 0
    ensures r.Rows? ==> |r.rows| == |book.bids|
    ensures r.Rows? ==> forall i :: 0 <= i < |book.bids| ==> r.rows[i] == RowOf(book.bids[i])
  {
    if |book.bids| > 0 then Rows(RowsOf(book.bids)) else NoOrders
  }

  /** Reversing twice gives back the original sequence. */
  lemma ReverseInvolutive<T>(s: seq<T>)
    ensures Reverse(Reverse(s)) == s
  {
    var back := Reverse(Reverse(s));
    forall i | 0 <= i < |s| ensures back[i] == s[i] {
      assert back[i] == Reverse(s)[|s| - 1 - i];
    }
  }

  /** Reading the ask rows bottom-up gives back the received order, and the
      ask rows follow the same size and total rule as the bid rows: the asks
      shown as a bid side would show the same rows, upside down. */
  lemma AskViewMirrorsBidView(book: OrderBook)
    requires |book.asks| > 0
    ensures Reverse(AskView(book).rows) == RowsOf(book.asks)
    ensures Reverse(AskView(book).rows) == BidView(OrderBook(book.asks, book.bids)).rows
  {
    ReverseInvolutive(RowsOf(book.asks));
  }

  /** A level's size is additive over its orders: splitting the orders into
      an earlier and a later part sums the two sizes. */
  lemma {:induction false} SizeSplits(price: real, earlier: seq<Order>, later: seq<Order>)
    ensures RowOf(PriceLevel(price, earlier + later)).size
         == RowOf(PriceLevel(price, earlier)).size + RowOf(PriceLevel(price, later)).size
  {
    ProjectAppend(earlier, later, (o: Order) => o.amount);
    SumAppend(OrderAmounts(earlier), OrderAmounts(later));
  }

  /** Two orders of 1.0 and 0.5 at price 100 show as one row of size 1.5
      and total 150. */
  lemma TwoOrderLevelExample()
    ensures var level := PriceLevel(100.0, [Order(1.0), Order(0.5)]);
            RowOf(level) == LevelRow(100.0, 1.5, 150.0)
  {
    var level := PriceLevel(100.0, [Order(1.0), Order(0.5)]);
    assert OrderAmounts(level.orders) == [1.0, 0.5];
    assert Sum([1.0, 0.5]) == 1.5 by {
      assert [1.0, 0.5][1..] == [0.5];
      assert [0.5][1..] == [];
    }
  }
}
