# Trade screen view model

A model of the computation inside the trade screen of the order-book demo
client (`src/app/trade/page.tsx`). The screen fetches the resting book and
the trade history from a matching engine it does not implement, and derives
what it shows from them:

- **pair statistics** from the trade list: the last price (the first trade's
  price), high and low (maximum and minimum price), and the two volumes, base
  (the sum of amounts) and quote (the sum of amount × price), each a left
  fold from 0; an empty list leaves the previous statistics in place;
- **price-level rows**: for each level the engine delivers, the size (the sum
  of its orders' amounts) and the total (price × size); asks are shown in
  reverse received order, bids in received order;
- **the spread line**: best ask minus best bid, and that as a percentage of
  the best bid, shown only when both sides have a level;
- **client state updates**: a refresh replaces book and history; an accepted
  order submission replaces the book only when a new one comes back, appends
  the returned trades and resets the form.

Prices and amounts are exact decimals (`real`), not floating point. Levels
arrive grouped and ordered from the engine; nothing here groups or sorts.
Clock readings (`Date.now()`) are parameters (`now`). Network requests become
response datatypes (`FetchResponse`, `SubmitResponse`) whose failure cases
leave the state untouched.

Modules: `MarketTypes` (records, `Option`), `Folds` (sum, left fold, max,
min), `MarketStats`, `LevelView`, `SpreadView`, `ClientState`.

The last price is the price of the first trade in the list; the code does
not say which end of the list is newest, and trades returned by a submission
are appended at the end. An empty history keeps the previous statistics;
there is no "no data" marker. The change figure is the constant 0.2. The
`|| 0` fallback on the last price only fires for a zero price (exact numbers
have no `NaN`), where it yields the same 0, so the model reports the first
trade's price unconditionally.

## Model

| member | source | states |
|---|---|---|
| Folds.FoldSumIsSum | src/app/trade/page.tsx:92-95 | the `reduce` left fold started at an accumulator adds exactly the sum of the list to it, so the fold from 0 is the sum |
| Folds.MaxOf | src/app/trade/page.tsx:104 | the maximum of a non-empty price list is one of its elements and no element exceeds it |
| Folds.MinOf | src/app/trade/page.tsx:105 | the minimum of a non-empty price list is one of its elements and no element is below it |
| MarketStats.DeriveStats | src/app/trade/page.tsx:86-109 | an empty list leaves the stats unchanged; otherwise price is the first trade's price, change is 0.2, high and low bound every price and are attained by some trade, base volume is the sum of amounts and quote volume the sum of amount × price |
| MarketStats.LowAtMostHigh | src/app/trade/page.tsx:104-105 | for a non-empty history the low never exceeds the high |
| MarketStats.VolumesAdditive | src/app/trade/page.tsx:89-99 | the volumes of a concatenated history are the sums of the volumes of its two parts |
| MarketStats.RecomputedFromScratch | src/app/trade/page.tsx:101-108 | stats from a non-empty history do not depend on the previous stats |
| MarketStats.TwoTradeExample | src/app/trade/page.tsx:86-109 | trades at 100 (amount 1) and 102 (amount 0.5) give high 102, low 100, price 100, base volume 1.5, quote volume 151 |
| LevelView.RowOf | src/app/trade/page.tsx:505-521 | a level's row carries its price, a size equal to the sum of its orders' amounts, and a total equal to price × size |
| LevelView.AskView | src/app/trade/page.tsx:502-531 | an empty ask side shows "no sell orders"; otherwise one row per ask level, in reverse received order, so the last row shown is the first level received |
| LevelView.BidView | src/app/trade/page.tsx:585-612 | an empty bid side shows "no buy orders"; otherwise one row per bid level, in received order |
| LevelView.AskViewMirrorsBidView | src/app/trade/page.tsx:503-526 | reading the ask rows bottom-up gives the received order, which is what the same levels would show as a bid side: both sides use one size/total rule |
| LevelView.SizeSplits | src/app/trade/page.tsx:587-590 | a level's size is additive over a split of its orders into an earlier and a later part |
| LevelView.TwoOrderLevelExample | src/app/trade/page.tsx:587-603 | orders of 1.0 and 0.5 at price 100 show as one row of size 1.5 and total 150 |
| SpreadView.SpreadOf | src/app/trade/page.tsx:541-576 | a spread is shown exactly when both sides have a level; best bid plus spread is best ask; the percentage exists exactly when the best bid is non-zero, and percentage × best bid = spread × 100 |
| SpreadView.SpreadIsBestAskMinusBestBid | src/app/trade/page.tsx:541-557 | when asks ascend and bids descend by price, the index-0 spread is the lowest ask price minus the highest bid price |
| SpreadView.SpreadExample | src/app/trade/page.tsx:547-557 | a bid at 100 and an ask at 101 give spread 1 and 1 percent |
| ClientState.Initial | src/app/trade/page.tsx:40-63 | the screen starts with an empty book and history, all-zero stats, and a blank CREATE / BUY form for BTC/USDC whose order id is the clock reading |
| ClientState.ApplyFetch | src/app/trade/page.tsx:82-109 | a failed refresh changes nothing; a successful one replaces the book and the history (an omitted list becomes empty), keeps the form, keeps the stats when the history is empty and otherwise sets them to the stats derived from the new history (first trade's price, 0.2, attained high and low bounds, both volume sums) |
| ClientState.FetchIdempotent | src/app/trade/page.tsx:82-108 | applying the same refresh twice equals applying it once |
| ClientState.FetchReplacesSnapshot | src/app/trade/page.tsx:82-108 | a refresh with a non-empty history yields the same book, history and stats whatever the previous state |
| ClientState.NoTradesKeepsZeroStats | src/app/trade/page.tsx:56-86 | a first refresh with a missing or empty history leaves the history empty and the stats at their initial zeros |
| ClientState.SubmittedOrder | src/app/trade/page.tsx:183-186 | the order sent is the form with a fresh order id and nothing else changed |
| ClientState.ResetForm | src/app/trade/page.tsx:216-222 | the reset clears account, amount and limit price, refreshes the order id and keeps side, pair and type |
| ClientState.ApplySubmit | src/app/trade/page.tsx:197-225 | a rejection changes nothing; an acceptance replaces the book only if one came back, keeps the current history as a prefix and appends exactly the returned trades (lengths add), and resets the form from the one captured when the order was sent, discarding edits made while the request was pending; stats never change |
| ClientState.ResetIdempotent | src/app/trade/page.tsx:216-222 | resetting the form twice with the same clock reading equals resetting it once |
| ClientState.SubmitThenFetchKeepsFirstPrice | src/app/trade/page.tsx:102-213 | after an accepted submission appends trades, a refresh echoing the grown history still reports the price of the oldest trade, since new trades go to the end and the price is read from the head |
| ClientState.SubmitThenFetchVolumes | src/app/trade/page.tsx:213 | after an accepted submission that returned trades, a refresh echoing the grown history reports the old volumes plus the new trades' volumes |

## Left out

- ClientState.ApplyFetch: does not model the JavaScript engine's limit on the number of arguments a spread call accepts. `Math.max(...prices)` and `Math.min(...prices)` throw once the history exceeds it (about 65536 to 100000 trades, depending on the engine). The book and history have already been replaced by then, so the screen keeps the new book and trades with the old stats and shows a fetch error. The model always recomputes the stats; the limit is a property of the runtime, not of this code.
- HTTP requests, status checks and JSON decoding (`/orderbook`, `/trades`, `/process-orders`, `/orders`): network I/O against an engine that is not part of this model; their outcomes are the `FetchResponse` and `SubmitResponse` cases.
- The matching engine (price-time priority, partial fills, cancellation): not implemented in this code.
- Grouping orders into levels and sorting levels: done by the engine; best-first order appears only as the precondition of `SpreadView.SpreadIsBestAskMinusBestBid`.
- React state, effects, the explanation/trading stage switch, loading flags, toasts and all rendering: presentation only.
- Form field editing (`handleInputChange`) and the side buttons: input binding outside the modelled updates.
- `toFixed` formatting and the `parseFloat` order-total preview: floating-point string formatting and parsing.
- The Buy/Sell colouring keyed on buyer account "1": a display heuristic.
- Floating-point rounding, `NaN` and `Infinity`: numbers are exact; a zero best bid gives no percentage (`None`) where the screen would print a non-finite value.
- A side missing from the book JSON: modelled as an empty side, which the screen treats the same way.
- The landing page and the toast/modal components: presentation with no logic.
- The full `OperationType` enum and the `Trade`/`Order` type definitions: the types file is not part of this model. `Trade` carries only the fields the screen reads (id, buy and sell order ids, buyer account, price, amount) and `Order` only its amount.
