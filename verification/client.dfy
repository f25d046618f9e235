/** The trade screen's client state and the two updates it applies to it:
    a refresh from the engine's book and trade feeds, and the outcome of an
    order submission. Clock readings (`Date.now()`) are passed in as `now`. */
module ClientState {
  import opened MarketTypes
  import opened MarketStats

  /** The order type field of the form; the enum's other members live in a
      types file that is not part of this model. */
  datatype OperationType = Create | Other(tag: string)

  /** The order entry form; the text fields hold what the user typed. */
  datatype OrderForm = OrderForm(
    typeOp: OperationType,
    accountId: string,
    amount: string,
    orderId: string,
    pair: string,
    limitPrice: string,
    side: Side)

  datatype State = State(book: OrderBook, trades: seq<Trade>, form: OrderForm, stats: PairStats)

  /** What a refresh delivers: nothing (a failed request or undecodable
      body), or the book and the trade list, which the body may omit. */
  datatype FetchResponse = FetchFailed | Fetched(book: OrderBook, trades: Option<seq<Trade>>)

  /** What an order submission delivers: a rejection (failed request or
      `success` false), or an acceptance optionally carrying a new book and
      the trades the order produced. */
  datatype SubmitResponse = Rejected | Accepted(book: Option<OrderBook>, trades: Option<seq<Trade>>)

  /** The screen's state on entry: empty book and history, zero stats, and a
      blank buy form for BTC/USDC. */
  function Initial(now: string): (r: State)
    ensures r.book.bids == [] && r.book.asks == [] && r.trades == []
    ensures r.stats.price == 0.0 && r.stats.change == 0.0 && r.stats.high == 0.0
            && r.stats.low == 0.0 && r.stats.volumeBase == 0.0 && r.stats.volumeQuote == 0.0
    ensures r.form.typeOp == Create && r.form.side == Buy && r.form.pair == "BTC/USDC"
    ensures r.form.accountId == "" && r.form.amount == "" && r.form.limitPrice == ""
    ensures r.form.orderId == now
  {
    State(EmptyBook, [], OrderForm(Create, "", "", now, "BTC/USDC", "", Buy), ZeroStats)
  }

  /** The state after a refresh. A failed refresh changes nothing. A
      successful one replaces the book and the history (an omitted list
      becomes empty) and recomputes the stats only when the history is
      non-empty; the form is untouched. */
  function ApplyFetch(s: State, resp: FetchResponse): (r: State)
    ensures resp.FetchFailed? ==> r == s
    ensures resp.Fetched? ==> r.book == resp.book && r.form == s.form
    ensures resp.Fetched? && resp.trades.Some? ==> r.trades == resp.trades.value
    ensures resp.Fetched? && resp.trades.None? ==> r.trades == []
    ensures resp.Fetched? && |r.trades| == 0 ==> r.stats == s.stats
    ensures resp.Fetched? && |r.trades| > 0 ==>
              r.stats.price == r.trades[0].price
              && r.stats.high in Prices(r.trades) && r.stats.low in Prices(r.trades)
    ensures resp.Fetched? && |r.trades| > 0 ==> r.stats == DeriveStats(s.stats, r.trades)
  {
    match resp
    case FetchFailed => s
    case Fetched(book, feed) =>
      var trades := feed.GetOr([]);
      var stats := DeriveStats(s.stats, trades);
      assert |trades| > 0 ==> stats.high in Prices(trades) && stats.low in Prices(trades) by {
        if |trades| > 0 {
          var i :| 0 <= i < |trades| && trades[i].price == stats.high;
          var j :| 0 <= j < |trades| && trades[j].price == stats.low;
          assert Prices(trades)[i] == stats.high && Prices(trades)[j] == stats.low;
        }
      }
      State(book, trades, s.form, stats)
  }

  /** Refreshing twice with the same response is the same as refreshing once. */
  lemma FetchIdempotent(s: State, resp: FetchResponse)
    ensures ApplyFetch(ApplyFetch(s, resp), resp) == ApplyFetch(s, resp)
  {
  }

  /** A refresh that delivers a non-empty history yields the same book,
      history and stats whatever the state before it: the snapshot replaces
      the old one wholesale. */
  lemma FetchReplacesSnapshot(s1: State, s2: State, book: OrderBook, trades: seq<Trade>)
    requires |trades| > 0
    ensures var r1, r2 := ApplyFetch(s1, Fetched(book, Some(trades))), ApplyFetch(s2, Fetched(book, Some(trades)));
            r1.book == r2.book && r1.trades == r2.trades && r1.stats == r2.stats
  {
    RecomputedFromScratch(s1.stats, s2.stats, trades);
  }

  /** Before any refresh has delivered a trade, the stats are all zero. */
  lemma NoTradesKeepsZeroStats(now: string, book: OrderBook, feed: Option<seq<Trade>>)
    requires feed.None? || feed == Some([])
    ensures ApplyFetch(Initial(now), Fetched(book, feed)).stats == ZeroStats
    ensures ApplyFetch(Initial(now), Fetched(book, feed)).trades == []
  {
  }

  /** The order sent to the engine: the form with a fresh order id. */
  function SubmittedOrder(form: OrderForm, now: string): (r: OrderForm)
    ensures r.orderId == now
    ensures r.(orderId := form.orderId) == form
  {
    form.(orderId := now)
  }

  /** The form after a successful submission: account, amount and limit
      price cleared, a fresh order id, side, pair and type kept. */
  function ResetForm(form: OrderForm, now: string): (r: OrderForm)
    ensures r.accountId == "" && r.amount == "" && r.limitPrice == ""
    ensures r.orderId == now
    ensures r.side == form.side && r.pair == form.pair && r.typeOp == form.typeOp
  {
    form.(accountId := "", amount := "", orderId := now, limitPrice := "")
  }

  /** The state after a submission. `sent` is the form as it stood when
      the order was sent; the form in `s` may have been edited since, while
      the request was pending. A rejection changes nothing. An acceptance
      replaces the book only when one came back, appends the returned trades
      after the current ones, resets the form from `sent` (discarding any
      edits made meanwhile) and leaves the stats as they were. */
  function ApplySubmit(s: State, sent: OrderForm, resp: SubmitResponse, now: string): (r: State)
    ensures resp.Rejected? ==> r == s
    ensures resp.Accepted? && resp.book.None? ==> r.book == s.book
    ensures resp.Accepted? && resp.book.Some? ==> r.book == resp.book.value
    ensures resp.Accepted? ==> |s.trades| <= |r.trades| && r.trades[..|s.trades|] == s.trades
    ensures resp.Accepted? && resp.trades.None? ==> r.trades == s.trades
    ensures resp.Accepted? && resp.trades.Some? ==>
              |r.trades| == |s.trades| + |resp.trades.value|
              && r.trades[|s.trades|..] == resp.trades.value
    ensures resp.Accepted? ==> r.form == ResetForm(sent, now)
    ensures r.stats == s.stats
  {
    match resp
    case Rejected => s
    case Accepted(book, added) =>
      var trades := if added.Some? then s.trades + added.value else s.trades;
      assert trades[..|s.trades|] == s.trades;
      State(book.GetOr(s.book), trades, ResetForm(sent, now), s.stats)
  }

  /** Resetting the form twice with the same clock reading is the same as
      resetting it once. */
  lemma ResetIdempotent(form: OrderForm, now: string)
    ensures ResetForm(ResetForm(form, now), now) == ResetForm(form, now)
  {
  }

  /** The next refresh after an accepted submission that returned trades
      (one that echoes the grown history back) reports volumes that add the
      new trades' volumes to those of the older history. */
  lemma SubmitThenFetchVolumes(s: State, added: seq<Trade>, book: Option<OrderBook>,
                               now: string, fetched: OrderBook)
    requires |s.trades| > 0 && |added| > 0
    ensures var after := ApplySubmit(s, s.form, Accepted(book, Some(added)), now);
            var refreshed := ApplyFetch(after, Fetched(fetched, Some(after.trades)));
            refreshed.stats.volumeBase
              == DeriveStats(s.stats, s.trades).volumeBase + DeriveStats(s.stats, added).volumeBase
            && refreshed.stats.volumeQuote
              == DeriveStats(s.stats, s.trades).volumeQuote + DeriveStats(s.stats, added).volumeQuote
  {
    VolumesAdditive(s.stats, s.trades, added);
  }

  /** Trades a submission returns go after the existing ones, and the last
      price is read from the head of the list, so the next refresh that
      echoes the grown history still reports the oldest trade's price. */
  lemma SubmitThenFetchKeepsFirstPrice(s: State, sent: OrderForm, added: seq<Trade>,
                                       book: Option<OrderBook>, now: string, fetched: OrderBook)
    requires |s.trades| > 0
    ensures var after := ApplySubmit(s, sent, Accepted(book, Some(added)), now);
            ApplyFetch(after, Fetched(fetched, Some(after.trades))).stats.price == s.trades[0].price
  {
  }
}
