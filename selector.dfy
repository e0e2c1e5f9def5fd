/** The weighted pick of the next item: every item gets a weight from its
    counters, a draw is scaled to the total weight, and a walk over the pool
    subtracts weights until the draw is used up. */
module Selector {
  import opened QuizModel

  /** Freshness `1 / (asked + 1)` counted twice, plus difficulty: the miss
      rate for an item already asked, one half for an unseen one. */
  function Weight(t: Tally): (w: real)
    ensures TallyOk(t) ==> 0.0 < w <= 2.5
    ensures t.asked == 0 ==> w == 2.5
    ensures t.asked > 0 && TallyOk(t) ==> w <= 2.0
  {
    var freshness := 1.0 / ((t.asked + 1) as real);
    var difficulty := if t.asked > 0 then 1.0 - (t.correct as real) / (t.asked as real) else 0.5;
    assert t.asked > 0 ==> freshness <= 0.5;
    assert t.asked > 0 && TallyOk(t) ==> 0.0 <= difficulty <= 1.0;
    freshness * 2.0 + difficulty
  }

  function Weights(ts: seq<Tally>): (ws: seq<real>)
    ensures |ws| == |ts|
  {
    seq(|ts|, i requires 0 <= i < |ts| => Weight(ts[i]))
  }

  /** The sum of the first `n` weights. */
  function Prefix(ws: seq<real>, n: nat): real
    requires n <= |ws|
  {
    if n == 0 then 0.0 else Prefix(ws, n - 1) + ws[n - 1]
  }

  predicate AllPositive(ws: seq<real>)
  {
    forall i :: 0 <= i < |ws| ==> ws[i] > 0.0
  }

  /** `k` is where the walk stops for the draw `r`: every earlier prefix sum
      falls short of `r`, and the prefix through `k` reaches `r` unless `k` is
      the last index, taken when the walk runs out. */
  predicate Selects(ws: seq<real>, r: real, k: nat)
  {
    k < |ws|
    && (forall j :: 0 < j <= k ==> Prefix(ws, j) < r)
    && (r <= Prefix(ws, k + 1) || k == |ws| - 1)
  }

  /** The total weight of a pool. */
  function Total(ws: seq<real>): real
  {
    Prefix(ws, |ws|)
  }

  /** `pickWeighted`, given the draw `r` that the source takes as
      `Math.random() * totalWeight`: returns the index the subtracting walk
      stops at. */
  method PickWeighted(items: seq<Tally>, r: real) returns (k: nat)
    requires |items| > 0
    ensures Selects(Weights(items), r, k)
  {
    var weights := Weights(items);
    k := Walk(weights, r);
  }

  /** The loop of `pickWeighted`: subtract each weight in turn from the draw
      and stop at the first index where nothing is left. */
  method Walk(weights: seq<real>, r: real) returns (k: nat)
    requires |weights| > 0
    ensures Selects(weights, r, k)
  {
    var random := r;
    var i := 0;
    while i < |weights|
      invariant 0 <= i <= |weights|
      invariant random == r - Prefix(weights, i)
      invariant forall j :: 0 < j <= i ==> Prefix(weights, j) < r
    {
      random := random - weights[i];
      if random <= 0.0 {
        return i;
      }
      i := i + 1;
    }
    return |weights| - 1;
  }

  /** With positive weights the prefix sums strictly increase. */
  lemma {:induction false} PrefixIncreasing(ws: seq<real>, m: nat, n: nat)
    requires AllPositive(ws)
    requires m < n <= |ws|
    ensures Prefix(ws, m) < Prefix(ws, n)
  {
    if m < n - 1 {
      PrefixIncreasing(ws, m, n - 1);
    }
  }

  /** Items whose counters satisfy the invariant all weigh more than zero,
      so no item is ever excluded from the pick. */
  lemma {:induction false} WeightsPositive(ts: seq<Tally>)
    requires forall i :: 0 <= i < |ts| ==> TallyOk(ts[i])
    ensures AllPositive(Weights(ts))
  {
    forall i | 0 <= i < |ts|
      ensures Weights(ts)[i] > 0.0
    {
      assert TallyOk(ts[i]);
    }
  }

  /** For positive weights and a draw in `[0, total)`, the walk returns `k`
      exactly when the draw lies in `k`'s slice `(Prefix(k), Prefix(k + 1)]`
      (the first slice also takes zero). Each slice is as wide as its weight,
      so an item is picked with probability proportional to its weight, and
      the fallback to the last item is never needed in exact arithmetic. */
  lemma {:induction false} SelectsIff(ws: seq<real>, r: real, k: nat)
    requires AllPositive(ws)
    requires 0.0 <= r < Total(ws)
    ensures Selects(ws, r, k) <==>
            k < |ws| && (k == 0 || Prefix(ws, k) < r) && r <= Prefix(ws, k + 1)
  {
    if Selects(ws, r, k) {
      if k > 0 {
        assert Prefix(ws, k) < r;
      }
    }
    if k < |ws| && (k == 0 || Prefix(ws, k) < r) && r <= Prefix(ws, k + 1) {
      forall j | 0 < j <= k
        ensures Prefix(ws, j) < r
      {
        if j < k {
          PrefixIncreasing(ws, j, k);
        }
      }
    }
  }

  /** Any item already asked, however often it was missed, weighs less than
      an item never asked. */
  lemma {:induction false} UnseenOutweighsSeen(t: Tally)
    requires TallyOk(t) && t.asked > 0
    ensures Weight(t) < Weight(Tally(0, 0))
  {
    var a := t.asked as real;
    assert 1.0 / (a + 1.0) <= 0.5;
    assert (t.correct as real) / a >= 0.0;
  }

  /** Of two items asked equally often, the one answered correctly fewer
      times weighs more. */
  lemma {:induction false} MissesRaiseWeight(asked: nat, fewer: nat, more: nat)
    requires asked > 0 && fewer < more <= asked
    ensures Weight(Tally(asked, fewer)) > Weight(Tally(asked, more))
  {
    var a := asked as real;
    assert (fewer as real) / a < (more as real) / a;
  }
}
