/** Concrete instances of the reward-swap sizing and of the pure LP account helpers. */
module SwapScenarios {
  import opened Errors
  import opened LpAccount
  import opened FixedPoint
  import Sequences
  import C = Constants


  /** CRV worth a whole number of dollars (at 18 decimals) with 5% slippage must return 95% of it in USDC. */
  lemma CrvWholeDollars(amount: int, tokenPrice: real, valuation: UsdValuation, dollars: nat)
    requires tokenPrice >= 0.0 && valuation(amount, tokenPrice) == dollars * E18
    ensures SizeSwap(C.SWAPS["CRV"], amount, tokenPrice, valuation) == Ok(dollars * 950000)
  {
    C.SwapsWellFormed();
    var usd := dollars * E18;
    assert FixedPoint.Pow10(SLIPPAGE_DECIMALS) == 10000;
    assert usd * 500 == (dollars * 50000000000000000) * 10000;
    FixedPoint.TruncDivExact(dollars * 50000000000000000, 10000);
    assert SlippageOf(usd, 500) == dollars * 50000000000000000;
    assert FixedPoint.Pow10(6) == E6;
    assert FixedPoint.Pow10(18) == E18;
    assert (usd - dollars * 50000000000000000) * E6 == (dollars * 950000) * E18;
    FixedPoint.TruncDivExact(dollars * 950000, E18);
  }

  /** CRV worth $1000 must return at least 950 USDC... */
  lemma CrvThousandDollars(amount: int, tokenPrice: real, valuation: UsdValuation)
    requires tokenPrice >= 0.0 && valuation(amount, tokenPrice) == 1000 * E18
    ensures SizeSwap(C.SWAPS["CRV"], amount, tokenPrice, valuation) == Ok(950 * E6)
  {
    CrvWholeDollars(amount, tokenPrice, valuation, 1000);
  }

  /** ... so a positive CRV balance worth that much is swapped in full for at least 950 USDC. */
  lemma CrvThousandDollarsSwaps(amount: int, tokenPrice: real, valuation: UsdValuation)
    requires amount >= 1 && tokenPrice >= 0.0 && valuation(amount, tokenPrice) == 1000 * E18
    ensures CreateSwapDecision(C.SWAPS, "CRV", amount, tokenPrice, valuation)
            == Ok(SwapCall("crv-to-usdc", amount, 950 * E6))
  {
    CrvThousandDollars(amount, tokenPrice, valuation);
    assert FixedPoint.Pow10(6) == E6;
  }

  /** CRV worth $100 nets 95 USDC after slippage, under the $100 floor. */
  lemma CrvHundredDollarsTooLow(amount: int, tokenPrice: real, valuation: UsdValuation)
    requires amount >= 1 && tokenPrice >= 0.0 && valuation(amount, tokenPrice) == 100 * E18
    ensures CreateSwapDecision(C.SWAPS, "CRV", amount, tokenPrice, valuation) == Err(ValueTooLow(95 * E6))
  {
    CrvWholeDollars(amount, tokenPrice, valuation, 100);
    assert FixedPoint.Pow10(6) == E6;
  }

  /** An empty CVX balance is rejected before any price is consulted. */
  lemma EmptyBalanceRejected(tokenPrice: real, valuation: UsdValuation)
    ensures CreateSwapDecision(C.SWAPS, "CVX", 0, tokenPrice, valuation) == Err(NoRewardTokens)
  {
    C.SwapsWellFormed();
  }

  /** A swap key missing from the table fails as reading a field of `undefined` does. */
  lemma UnknownSwapIsTypeError(amount: int, tokenPrice: real, valuation: UsdValuation)
    ensures GetSwapMinAmount(C.SWAPS, "SNX", amount, tokenPrice, valuation) == Err(UnknownSwap("SNX"))
    ensures Class(UnknownSwap("SNX")) == TypeError
  {
    C.SwapsWellFormed();
  }

  /**
   * A slippage of 2.0 on a value of one unit at 18 decimals (10^-18 dollars) leaves -1,
   * which truncating division carries to 0 at 6 decimals, so the negativity
   * guard does not fire; Euclidean division would have produced -1.
   */
  lemma OverSlippageTruncatesToZero(amount: int, tokenPrice: real, valuation: UsdValuation)
    requires tokenPrice >= 0.0 && valuation(amount, tokenPrice) == 1
    ensures SizeSwap(C.SWAPS["CRV"].(slippage := 20000), amount, tokenPrice, valuation) == Ok(0)
    ensures (-1 * FixedPoint.Pow10(6)) / FixedPoint.Pow10(18) == -1
  {
    C.SwapsWellFormed();
    assert SlippageOf(1, 20000) == 2;
    assert FixedPoint.Pow10(6) == E6;
    assert FixedPoint.Pow10(18) == E18;
  }

  /** A deposit of 5 USDC into a 3pool position fills only the USDC slot. */
  lemma DeployIntoThreePool()
    ensures GetDeployParams(map["curve-3pool" := C.THREE_POOL], "curve-3pool", Tokens.TokenAmount(C.USDC_ADDRESS, 5))
            == Ok(DeployParams("curve-3pool", [0, 5, 0]))
  {
    C.UnderlyersDistinct();
    assert C.UNDERLYERS[..3] == C.THREE_POOL;
    var r := GetDeployParams(map["curve-3pool" := C.THREE_POOL], "curve-3pool", Tokens.TokenAmount(C.USDC_ADDRESS, 5));
    assert r.Ok?;
    assert C.THREE_POOL[..1] == [C.DAI_ADDRESS];
    assert r.value.amounts == [0, 5, 0];
  }

  /** Only zaps holding LP tokens are claimed, in order. */
  lemma ClaimOnlyFunded()
    ensures GetClaimNames(["curve-3pool", "curve-frax", "curve-mim"], [7, 0, 3]) == Ok(["curve-3pool", "curve-mim"])
    ensures GetClaimNames(["curve-3pool"], []) == Err(ClaimLengthMismatch)
  {
    assert PositiveFlags([7, 0, 3]) == [true, false, true];
    Sequences.FilterThree("curve-3pool", "curve-frax", "curve-mim", true, false, true);
    assert ["curve-3pool"] + [] + ["curve-mim"] == ["curve-3pool", "curve-mim"];
  }
}
