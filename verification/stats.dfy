/** The pair statistics the trade screen derives from the trade history on
    every refresh: last price, high, low, base volume and quote volume. */
module MarketStats {
  import opened MarketTypes
  import opened Folds

  /** The statistics shown above the book; `change` is a fixed placeholder. */
  datatype PairStats = PairStats(
    price: real,
    change: real,
    high: real,
    low: real,
    volumeBase: real,
    volumeQuote: real)

  /** The statistics before any refresh has produced data. */
  const ZeroStats := PairStats(0.0, 0.0, 0.0, 0.0, 0.0, 0.0)

  /** The placeholder price change the screen always reports. */
  const ChangePlaceholder: real := 0.2

  function Prices(trades: seq<Trade>): (r: seq<real>)
  {
    Project(trades, (t: Trade) => t.price)
  }

  function Amounts(trades: seq<Trade>): (r: seq<real>)
  {
    Project(trades, (t: Trade) => t.amount)
  }

  /** The per-trade quote value `amount * price`. */
  function Notionals(trades: seq<Trade>): (r: seq<real>)
  {
    Project(trades, (t: Trade) => t.amount * t.price)
  }

  /** The statistics after a refresh that delivered `trades`: recomputed from
      the list when it is non-empty, left as `prev` when it is empty. */
  function DeriveStats(prev: PairStats, trades: seq<Trade>): (r: PairStats)
    ensures |trades| == 0 ==> r == prev
    ensures |trades| > 0 ==> r.price == trades[0].price && r.change == ChangePlaceholder
    ensures |trades| > 0 ==> forall i :: 0 <= i < |trades| ==> r.low <= trades[i].price <= r.high
    ensures |trades| > 0 ==> exists i :: 0 <= i < |trades| && trades[i].price == r.high
    ensures |trades| > 0 ==> exists j :: 0 <= j < |trades| && trades[j].price == r.low
    ensures |trades| > 0 ==> r.volumeBase == Sum(Amounts(trades))
    ensures |trades| > 0 ==> r.volumeQuote == Sum(Notionals(trades))
  {
    if |trades| == 0 then prev
    else
      var prices := Prices(trades);
      FoldSumIsSum(0.0, Amounts(trades));
      FoldSumIsSum(0.0, Notionals(trades));
      var hi := MaxOf(prices);
      var lo := MinOf(prices);
      assert exists i :: 0 <= i < |trades| && trades[i].price == hi by {
        var i :| 0 <= i < |prices| && prices[i] == hi;
      }
      assert exists j :: 0 <= j < |trades| && trades[j].price == lo by {
        var j :| 0 <= j < |prices| && prices[j] == lo;
      }
      PairStats(
        price := prices[0],
        change := ChangePlaceholder,
        high := hi,
        low := lo,
        volumeBase := FoldSum(0.0, Amounts(trades)),
        volumeQuote := FoldSum(0.0, Notionals(trades)))
  }

  /** On a non-empty history the reported low never exceeds the reported high. */
  lemma LowAtMostHigh(prev: PairStats, trades: seq<Trade>)
    requires |trades| > 0
    ensures DeriveStats(prev, trades).low <= DeriveStats(prev, trades).high
  {
    var r := DeriveStats(prev, trades);
    assert r.low <= trades[0].price <= r.high;
  }

  /** The base volume of a longer history is the base volume of its first part
      plus the amounts of the trades after it, and likewise for quote volume. */
  lemma {:induction false} VolumesAdditive(prev: PairStats, older: seq<Trade>, newer: seq<Trade>)
    requires |older| > 0 && |newer| > 0
    ensures DeriveStats(prev, older + newer).volumeBase
         == DeriveStats(prev, older).volumeBase + DeriveStats(prev, newer).volumeBase
    ensures DeriveStats(prev, older + newer).volumeQuote
         == DeriveStats(prev, older).volumeQuote + DeriveStats(prev, newer).volumeQuote
  {
    ProjectAppend(older, newer, (t: Trade) => t.amount);
    ProjectAppend(older, newer, (t: Trade) => t.amount * t.price);
    SumAppend(Amounts(older), Amounts(newer));
    SumAppend(Notionals(older), Notionals(newer));
  }

  /** Stats derived from a non-empty history do not depend on the previous
      stats: each refresh recomputes them from scratch. */
  lemma RecomputedFromScratch(prev1: PairStats, prev2: PairStats, trades: seq<Trade>)
    requires |trades| > 0
    ensures DeriveStats(prev1, trades) == DeriveStats(prev2, trades)
  {
  }

  /** The two-trade example: prices 100 and 102, amounts 1 and 0.5, give high
      102, low 100, base volume 1.5 and quote volume 151; the last price is
      the first trade's. */
  lemma TwoTradeExample(prev: PairStats)
    ensures var t := [Trade("1", "b1", "s1", "1", 100.0, 1.0),
                      Trade("2", "b2", "s2", "1", 102.0, 0.5)];
            var r := DeriveStats(prev, t);
            r.high == 102.0 && r.low == 100.0 && r.price == 100.0
            && r.volumeBase == 1.5 && r.volumeQuote == 151.0
  {
    var t := [Trade("1", "b1", "s1", "1", 100.0, 1.0),
              Trade("2", "b2", "s2", "1", 102.0, 0.5)];
    var r := DeriveStats(prev, t);
    assert Amounts(t) == [1.0, 0.5];
    assert Notionals(t) == [100.0, 51.0];
    assert Sum([1.0, 0.5]) == 1.5 by {
      assert [1.0, 0.5][1..] == [0.5];
      assert [0.5][1..] == [];
    }
    assert Sum([100.0, 51.0]) == 151.0 by {
      assert [100.0, 51.0][1..] == [51.0];
      assert [51.0][1..] == [];
    }
    assert r.low <= 100.0 && r.high >= 102.0;
  }
}
