/** The argmax the rebalance decision uses: largest amount, first entry on a tie. */
module Selection {
  import opened Errors
  import opened Tokens

  /** `k` is where a left-to-right scan that only moves on a strictly larger amount stops. */
  ghost predicate IsFirstLargest(amounts: seq<TokenAmount>, k: int)
  {
    && 0 <= k < |amounts|
    && (forall j :: 0 <= j < |amounts| ==> amounts[j].amount <= amounts[k].amount)
    && (forall j :: 0 <= j < k ==> amounts[j].amount < amounts[k].amount)
  }

  function LargestIndex(amounts: seq<TokenAmount>): (k: nat)
    requires |amounts| > 0
    ensures IsFirstLargest(amounts, k)
    decreases |amounts|
  {
    if |amounts| == 1 then 0
    else
      var n := |amounts| - 1;
      var best := LargestIndex(amounts[..n]);
      if amounts[n].amount > amounts[best].amount then n else best
  }

  /** Only one index is the first largest. */
  lemma FirstLargestUnique(amounts: seq<TokenAmount>, k: int, m: int)
    requires IsFirstLargest(amounts, k) && IsFirstLargest(amounts, m)
    ensures k == m
  {
    assert amounts[k].amount == amounts[m].amount;
  }

  /** `getLargestAmount`: the entry with the greatest amount, the first on a tie; RangeError on `[]`. */
  function GetLargestAmount(amounts: seq<TokenAmount>): (r: Result<TokenAmount>)
    ensures r.Err? <==> |amounts| == 0
    ensures r.Err? ==> r.error == EmptyAmounts && Class(r.error) == RangeError
    ensures r.Ok? ==> exists k :: IsFirstLargest(amounts, k) && r.value == amounts[k]
  {
    if |amounts| == 0 then Err(EmptyAmounts)
    else
      var k := LargestIndex(amounts);
      Ok(amounts[k])
  }
}
