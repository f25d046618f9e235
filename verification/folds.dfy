/** The reductions the trade screen applies to number lists: the
    `reduce((sum, x) => sum + x, 0)` left fold, and `Math.max` / `Math.min`
    over a non-empty list. */
module Folds {

  /** The mathematical sum of `xs`, the reference the folds are measured against. */
  function Sum(xs: seq<real>): (r: real)
  {
    if |xs| == 0 then 0.0 else xs[0] + Sum(xs[1..])
  }

  /** The left fold `xs.reduce((sum, x) => sum + x, acc)`: the accumulator is
      updated element by element from the left. */
  function FoldSum(acc: real, xs: seq<real>): (r: real)
    decreases |xs|
  {
    if |xs| == 0 then acc else FoldSum(acc + xs[0], xs[1..])
  }

  /** The left fold started from `acc` adds exactly the sum of the list to it. */
  lemma {:induction false} FoldSumIsSum(acc: real, xs: seq<real>)
    ensures FoldSum(acc, xs) == acc + Sum(xs)
    decreases |xs|
  {
    if |xs| > 0 {
      FoldSumIsSum(acc + xs[0], xs[1..]);
    }
  }

  /** Summing a concatenation sums its two parts. */
  lemma {:induction false} SumAppend(a: seq<real>, b: seq<real>)
    ensures Sum(a + b) == Sum(a) + Sum(b)
  {
    if |a| == 0 {
      assert a + b == b;
    } else {
      assert (a + b)[1..] == a[1..] + b;
      SumAppend(a[1..], b);
    }
  }

  /** The list of numbers read off each element of `s`, in order, as the
      screen's `map(x => x.field)` produces it. */
  function Project<T>(s: seq<T>, f: T -> real): (r: seq<real>)
    ensures |r| == |s|
    ensures forall i :: 0 <= i < |s| ==> r[i] == f(s[i])
  {
    seq(|s|, i requires 0 <= i < |s| => f(s[i]))
  }

  /** Projecting a concatenation concatenates the projections. */
  lemma ProjectAppend<T>(a: seq<T>, b: seq<T>, f: T -> real)
    ensures Project(a + b, f) == Project(a, f) + Project(b, f)
  {
    var all, parts := Project(a + b, f), Project(a, f) + Project(b, f);
    forall i | 0 <= i < |all| ensures all[i] == parts[i] {
      if i >= |a| {
        assert (a + b)[i] == b[i - |a|];
      }
    }
  }

  /** `Math.max(...xs)` for a non-empty list: an upper bound that is attained. */
  function MaxOf(xs: seq<real>): (r: real)
    requires |xs| > 0
    ensures r in xs
    ensures forall i :: 0 <= i < |xs| ==> xs[i] <= r
  {
    if |xs| == 1 then xs[0]
    else
      var m := MaxOf(xs[1..]);
      if xs[0] >= m then xs[0] else m
  }

  /** `Math.min(...xs)` for a non-empty list: a lower bound that is attained. */
  function MinOf(xs: seq<real>): (r: real)
    requires |xs| > 0
    ensures r in xs
    ensures forall i :: 0 <= i < |xs| ==> r <= xs[i]
  {
    if |xs| == 1 then xs[0]
    else
      var m := MinOf(xs[1..]);
      if xs[0] <= m then xs[0] else m
  }

  /** For a list in strictly descending order the maximum is the head. */
  lemma {:induction false} MaxOfDescendingIsHead(xs: seq<real>)
    requires |xs| > 0
    requires forall i :: 0 < i < |xs| ==> xs[i] < xs[i - 1]
    ensures MaxOf(xs) == xs[0]
  {
    if |xs| > 1 {
      var t := xs[1..];
      assert forall i :: 0 < i < |t| ==> t[i] < t[i - 1] by {
        forall i | 0 < i < |t| ensures t[i] < t[i - 1] {
          assert t[i] == xs[i + 1] && t[i - 1] == xs[i];
        }
      }
      MaxOfDescendingIsHead(t);
      assert t[0] == xs[1];
    }
  }

  /** For a list in strictly ascending order the minimum is the head. */
  lemma {:induction false} MinOfAscendingIsHead(xs: seq<real>)
    requires |xs| > 0
    requires forall i :: 0 < i < |xs| ==> xs[i - 1] < xs[i]
    ensures MinOf(xs) == xs[0]
  {
    if |xs| > 1 {
      var t := xs[1..];
      assert forall i :: 0 < i < |t| ==> t[i - 1] < t[i] by {
        forall i | 0 < i < |t| ensures t[i - 1] < t[i] {
          assert t[i] == xs[i + 1] && t[i - 1] == xs[i];
        }
      }
      MinOfAscendingIsHead(t);
      assert t[0] == xs[1];
    }
  }
}
