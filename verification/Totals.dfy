/** Sums over sequences. */
module Totals {

  function Sum(counts: seq<nat>): nat {
    if counts == [] then 0 else counts[0] + Sum(counts[1..])
  }

  lemma {:induction false} SumOfEqual(counts: seq<nat>, k: nat)
    requires forall i :: 0 <= i < |counts| ==> counts[i] == k
    ensures Sum(counts) == |counts| * k
  {
    if counts != [] {
      SumOfEqual(counts[1..], k);
      assert |counts| * k == (|counts| - 1) * k + k;
    }
  }

  lemma {:induction false} SumUpdate(counts: seq<nat>, i: nat, k: nat)
    requires i < |counts|
    ensures Sum(counts[i := k]) == Sum(counts) - counts[i] + k
  {
    if i > 0 {
      SumUpdate(counts[1..], i - 1, k);
      assert counts[i := k][1..] == counts[1..][i - 1 := k];
    } else {
      assert counts[i := k][1..] == counts[1..];
    }
  }

  lemma {:induction false} SumAtLeast(counts: seq<nat>, i: nat)
    requires i < |counts|
    ensures Sum(counts) >= counts[i]
  {
    if i > 0 { SumAtLeast(counts[1..], i - 1); }
  }

  lemma {:induction false} SumsOfOrderedAgree(low: seq<nat>, high: seq<nat>)
    requires |low| == |high| && (forall i :: 0 <= i < |low| ==> low[i] <= high[i])
    ensures Sum(low) <= Sum(high) && (Sum(low) == Sum(high) ==> low == high)
  {
    if low != [] {
      SumsOfOrderedAgree(low[1..], high[1..]);
      assert low == [low[0]] + low[1..] && high == [high[0]] + high[1..];
    }
  }

  lemma {:induction false} SumOfScaled(counts: seq<nat>, scaled: seq<nat>, k: nat)
    requires |counts| == |scaled| && (forall i :: 0 <= i < |counts| ==> scaled[i] == k * counts[i])
    ensures Sum(scaled) == k * Sum(counts)
  {
    if counts != [] {
      SumOfScaled(counts[1..], scaled[1..], k);
      assert k * (counts[0] + Sum(counts[1..])) == k * counts[0] + k * Sum(counts[1..]);
    }
  }

  lemma {:induction false} SumOfAppend(counts: seq<nat>, k: nat)
    ensures Sum(counts + [k]) == Sum(counts) + k
  {
    if counts != [] {
      SumOfAppend(counts[1..], k);
      assert (counts + [k])[1..] == counts[1..] + [k];
    }
  }

  lemma {:induction false} SumAtMost(counts: seq<nat>, k: nat)
    requires forall i :: 0 <= i < |counts| ==> counts[i] <= k
    ensures Sum(counts) <= k * |counts|
  {
    if counts != [] {
      SumAtMost(counts[1..], k);
      assert k * |counts| == k * (|counts| - 1) + k;
    }
  }
}
