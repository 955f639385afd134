/**
 * The pure parts of the LP account tasks: deploy parameters, claim names,
 * and the sizing and guards of a reward-token swap.
 */
module LpAccount {
  import opened Errors
  import opened Tokens
  import opened FixedPoint
  import Sequences

  // ---------------------------------------------------------------- deploy

  /** Index position name to its ordered underlyers (the `INDEX_POSITIONS` configuration). */
  type IndexPositions = map<string, seq<Address>>

  /** `[name, amounts]`, the arguments of `deployStrategy`. */
  datatype DeployParams = DeployParams(name: string, amounts: seq<int>)

  /** `Array.prototype.indexOf`: the first index holding `x`, or -1. */
  function IndexOf(xs: seq<Address>, x: Address): (i: int)
    ensures -1 <= i < |xs|
    ensures i == -1 <==> x !in xs
    ensures i >= 0 ==> xs[i] == x && x !in xs[..i]
    decreases |xs|
  {
    if |xs| == 0 then -1
    else if xs[0] == x then 0
    else
      var k := IndexOf(xs[1..], x);
      if k < 0 then -1
      else
        assert xs[..k + 1] == [xs[0]] + xs[1..][..k];
        k + 1
  }

  /**
   * `getDeployParams`: one amount slot per position underlyer, all zero
   * except the slot of the first occurrence of the deposited token.
   */
  function GetDeployParams(positions: IndexPositions, name: string, deposit: TokenAmount): (r: Result<DeployParams>)
    ensures r.Ok? <==> name in positions && deposit.address in positions[name]
    ensures name !in positions ==> r == Err(UnknownPosition(name)) && Class(r.error) == TypeError
    ensures name in positions && deposit.address !in positions[name] ==>
              r == Err(PositionNotConfigured(name, deposit.address))
    ensures r.Ok? ==> && r.value.name == name
                      && |r.value.amounts| == |positions[name]|
                      && forall i :: 0 <= i < |r.value.amounts| ==>
                           r.value.amounts[i] == (if positions[name][i] == deposit.address
                                                     && deposit.address !in positions[name][..i]
                                                  then deposit.amount else 0)
  {
    if name !in positions then Err(UnknownPosition(name))
    else
      var underlyers := positions[name];
      var index := IndexOf(underlyers, deposit.address);
      if index < 0 then Err(PositionNotConfigured(name, deposit.address))
      else
        var amounts := seq(|underlyers|, i requires 0 <= i < |underlyers| => if i == index then deposit.amount else 0);
        assert forall i :: 0 <= i < |underlyers| && underlyers[i] == deposit.address && i != index ==>
          (i > index && underlyers[..i][index] == deposit.address);
        Ok(DeployParams(name, amounts))
  }

  function Sum(xs: seq<int>): int
    decreases |xs|
  {
    if |xs| == 0 then 0 else Sum(xs[..|xs| - 1]) + xs[|xs| - 1]
  }

  /** A vector that is zero outside slot `k` sums to its slot `k`. */
  lemma {:induction false} SumOneHot(xs: seq<int>, k: int)
    requires 0 <= k < |xs|
    requires forall i :: 0 <= i < |xs| && i != k ==> xs[i] == 0
    ensures Sum(xs) == xs[k]
    decreases |xs|
  {
    var n := |xs| - 1;
    if n == k {
      SumZero(xs[..n]);
    } else {
      SumOneHot(xs[..n], k);
    }
  }

  lemma {:induction false} SumZero(xs: seq<int>)
    requires forall i :: 0 <= i < |xs| ==> xs[i] == 0
    ensures Sum(xs) == 0
    decreases |xs|
  {
    if |xs| > 0 {
      SumZero(xs[..|xs| - 1]);
    }
  }

  /** The deploy amounts move exactly the deposited amount, all of it in the deposited token's slot. */
  lemma DeployParamsConserveAmount(positions: IndexPositions, name: string, deposit: TokenAmount)
    requires name in positions && deposit.address in positions[name]
    ensures GetDeployParams(positions, name, deposit).Ok?
    ensures Sum(GetDeployParams(positions, name, deposit).value.amounts) == deposit.amount
  {
    var amounts := GetDeployParams(positions, name, deposit).value.amounts;
    var k := IndexOf(positions[name], deposit.address);
    assert amounts[k] == deposit.amount;
    SumOneHot(amounts, k);
  }

  // ---------------------------------------------------------------- claims

  function PositiveFlags(lpBalances: seq<int>): seq<bool>
  {
    seq(|lpBalances|, i requires 0 <= i < |lpBalances| => lpBalances[i] > 0)
  }

  /**
   * `getClaimNames`: the zap names whose LP balance at the same position is
   * strictly positive, in their original order; the two lists must have
   * equal length.
   */
  function GetClaimNames(zapNames: seq<string>, lpBalances: seq<int>): (r: Result<seq<string>>)
    ensures r.Err? <==> |zapNames| != |lpBalances|
    ensures r.Err? ==> r.error == ClaimLengthMismatch
    ensures r.Ok? ==> r.value == Sequences.Select(zapNames, Sequences.Positions(PositiveFlags(lpBalances)))
  {
    if |zapNames| != |lpBalances| then Err(ClaimLengthMismatch)
    else
      Sequences.FilterIsSelect(zapNames, PositiveFlags(lpBalances));
      Ok(Sequences.Filter(zapNames, PositiveFlags(lpBalances)))
  }

  /** A name is claimed exactly when some position holding it has a positive balance. */
  lemma ClaimNamesMembers(zapNames: seq<string>, lpBalances: seq<int>)
    requires |zapNames| == |lpBalances|
    ensures GetClaimNames(zapNames, lpBalances).Ok?
    ensures forall x :: x in GetClaimNames(zapNames, lpBalances).value <==>
              exists i :: 0 <= i < |zapNames| && zapNames[i] == x && lpBalances[i] > 0
    ensures |GetClaimNames(zapNames, lpBalances).value| <= |zapNames|
  {
    Sequences.FilterMembers(zapNames, PositiveFlags(lpBalances));
    var r := GetClaimNames(zapNames, lpBalances).value;
    forall x
      ensures x in r <==> exists i :: 0 <= i < |zapNames| && zapNames[i] == x && lpBalances[i] > 0
    {
      if x in r {
        var i :| 0 <= i < |zapNames| && PositiveFlags(lpBalances)[i] && zapNames[i] == x;
      }
      if exists i :: 0 <= i < |zapNames| && zapNames[i] == x && lpBalances[i] > 0 {
        var i :| 0 <= i < |zapNames| && zapNames[i] == x && lpBalances[i] > 0;
        assert PositiveFlags(lpBalances)[i];
      }
    }
  }

  // ---------------------------------------------------------------- swaps

  /**
   * A `SWAPS` entry. `slippage` is the configured decimal string already
   * parsed at `SLIPPAGE_DECIMALS` decimals ("0.05" is 500).
   */
  datatype SwapConfig = SwapConfig(
    name: string,
    address: Address,
    inTokenDecimals: nat,
    outTokenDecimals: nat,
    slippage: int)

  const SLIPPAGE_DECIMALS: nat := 4

  /** The smallest swap worth sending, in whole output tokens (dollars). */
  const MIN_SWAP_VALUE: nat := 100

  /**
   * The price feed's conversion of a token amount and a unit price into a USD
   * value at the input token's decimals; it lives outside this model.
   */
  type UsdValuation = (int, real) -> int

  /** `getSwapAmountUsdValue`: a negative price is a RangeError; otherwise the feed's valuation. */
  function GetSwapAmountUsdValue(amount: int, tokenPrice: real, valuation: UsdValuation): (r: Result<int>)
    ensures r.Err? <==> tokenPrice < 0.0
    ensures r.Err? ==> r.error == NegativePrice && Class(r.error) == RangeError
    ensures r.Ok? ==> r.value == valuation(amount, tokenPrice)
  {
    if tokenPrice < 0.0 then Err(NegativePrice) else Ok(valuation(amount, tokenPrice))
  }

  /** `usdValue * slippage / 10n ** 4n`, truncated toward zero. */
  function SlippageOf(usdValue: int, slippage: int): int
  {
    TruncDiv(usdValue * slippage, Pow10(SLIPPAGE_DECIMALS))
  }

  /**
   * `getSlippageUsdValue`: a negative slippage is a RangeError; a slippage
   * of at most 1.0 on a non-negative value costs between nothing and all of it.
   */
  function GetSlippageUsdValue(usdValue: int, slippage: int): (r: Result<int>)
    ensures r.Err? <==> slippage < 0
    ensures r.Err? ==> r.error == NegativeSlippage && Class(r.error) == RangeError
    ensures r.Ok? && usdValue >= 0 ==> 0 <= r.value
    ensures r.Ok? && usdValue >= 0 && slippage <= Pow10(SLIPPAGE_DECIMALS) ==> r.value <= usdValue
    ensures r.Ok? ==> r.value == SlippageOf(usdValue, slippage)
  {
    if slippage < 0 then Err(NegativeSlippage)
    else
      SlippageBounds(usdValue, slippage);
      Ok(SlippageOf(usdValue, slippage))
  }

  lemma SlippageBounds(usdValue: int, slippage: int)
    requires slippage >= 0
    ensures usdValue >= 0 ==> 0 <= SlippageOf(usdValue, slippage)
    ensures usdValue >= 0 && slippage <= Pow10(SLIPPAGE_DECIMALS) ==> SlippageOf(usdValue, slippage) <= usdValue
  {
    var d := Pow10(SLIPPAGE_DECIMALS);
    if usdValue >= 0 {
      assert usdValue * slippage >= 0;
      if slippage <= d {
        assert usdValue * slippage <= usdValue * d;
        TruncDivMonotone(usdValue * slippage, usdValue * d, d);
        TruncDivExact(usdValue, d);
      }
    }
  }

  /** On a non-negative value a larger slippage never costs less. */
  lemma SlippageMonotone(usdValue: int, s1: int, s2: int)
    requires usdValue >= 0 && 0 <= s1 <= s2
    ensures SlippageOf(usdValue, s1) <= SlippageOf(usdValue, s2)
  {
    assert usdValue * s1 <= usdValue * s2;
    TruncDivMonotone(usdValue * s1, usdValue * s2, Pow10(SLIPPAGE_DECIMALS));
  }

  /** `(usdValue - slippageValue) * 10n ** out / 10n ** in`, truncated toward zero. */
  function MinAmountOf(usdValue: int, slippageValue: int, inDecimals: nat, outDecimals: nat): int
  {
    Rescale(usdValue - slippageValue, inDecimals, outDecimals)
  }

  /** Slippage only ever lowers the minimum output below the full value. */
  lemma MinAmountAtMostValue(usdValue: int, slippage: int, inDecimals: nat, outDecimals: nat)
    requires slippage >= 0
    ensures usdValue >= 0 ==>
              MinAmountOf(usdValue, SlippageOf(usdValue, slippage), inDecimals, outDecimals)
              <= Rescale(usdValue, inDecimals, outDecimals)
  {
    if usdValue >= 0 {
      SlippageBounds(usdValue, slippage);
      RescaleMonotone(usdValue - SlippageOf(usdValue, slippage), usdValue, inDecimals, outDecimals);
    }
  }

  /**
   * The arithmetic of `getSwapMinAmount` for a given configuration: price
   * guard, slippage guard, conversion to output decimals, negativity guard.
   */
  function SizeSwap(swap: SwapConfig, amount: int, tokenPrice: real, valuation: UsdValuation): (r: Result<int>)
    ensures tokenPrice < 0.0 ==> r == Err(NegativePrice)
    ensures tokenPrice >= 0.0 && swap.slippage < 0 ==> r == Err(NegativeSlippage)
    ensures tokenPrice >= 0.0 && swap.slippage >= 0 ==>
              (r.Ok? <==> MinAmountOf(valuation(amount, tokenPrice),
                                      SlippageOf(valuation(amount, tokenPrice), swap.slippage),
                                      swap.inTokenDecimals, swap.outTokenDecimals) >= 0)
    ensures r.Err? && tokenPrice >= 0.0 && swap.slippage >= 0 ==> r.error == NegativeMinAmount
    ensures r.Err? ==> Class(r.error) == RangeError
    ensures r.Ok? ==> && tokenPrice >= 0.0 && swap.slippage >= 0
                      && r.value >= 0
                      && r.value == MinAmountOf(valuation(amount, tokenPrice),
                                                SlippageOf(valuation(amount, tokenPrice), swap.slippage),
                                                swap.inTokenDecimals, swap.outTokenDecimals)
    ensures r.Ok? && valuation(amount, tokenPrice) >= 0 ==>
              r.value <= Rescale(valuation(amount, tokenPrice), swap.inTokenDecimals, swap.outTokenDecimals)
  {
    var usdValue :- GetSwapAmountUsdValue(amount, tokenPrice, valuation);
    var slippageValue :- GetSlippageUsdValue(usdValue, swap.slippage);
    var minAmount := MinAmountOf(usdValue, slippageValue, swap.inTokenDecimals, swap.outTokenDecimals);
    MinAmountAtMostValue(usdValue, swap.slippage, swap.inTokenDecimals, swap.outTokenDecimals);
    if minAmount < 0 then Err(NegativeMinAmount) else Ok(minAmount)
  }

  /** With a non-negative value and a slippage of at most 1.0 the negativity guard never fires. */
  lemma SizeSwapSucceeds(swap: SwapConfig, amount: int, tokenPrice: real, valuation: UsdValuation)
    requires tokenPrice >= 0.0 && valuation(amount, tokenPrice) >= 0
    requires 0 <= swap.slippage <= Pow10(SLIPPAGE_DECIMALS)
    ensures SizeSwap(swap, amount, tokenPrice, valuation).Ok?
  {
    var usdValue := valuation(amount, tokenPrice);
    SlippageBounds(usdValue, swap.slippage);
    RescaleNonNegative(usdValue - SlippageOf(usdValue, swap.slippage), swap.inTokenDecimals, swap.outTokenDecimals);
  }

  /** On a non-negative value, raising the slippage never raises the minimum output: whenever the
      larger slippage sizes a swap, the smaller one does too, with at least the same minimum. */
  lemma SizeSwapMonotoneInSlippage(swap: SwapConfig, s1: int, s2: int, amount: int, tokenPrice: real,
                                   valuation: UsdValuation)
    requires tokenPrice >= 0.0 && 0 <= s1 <= s2 && valuation(amount, tokenPrice) >= 0
    ensures SizeSwap(swap.(slippage := s2), amount, tokenPrice, valuation).Ok? ==>
              && SizeSwap(swap.(slippage := s1), amount, tokenPrice, valuation).Ok?
              && SizeSwap(swap.(slippage := s2), amount, tokenPrice, valuation).value
                 <= SizeSwap(swap.(slippage := s1), amount, tokenPrice, valuation).value
  {
    var usdValue := valuation(amount, tokenPrice);
    SlippageMonotone(usdValue, s1, s2);
    RescaleMonotone(usdValue - SlippageOf(usdValue, s2), usdValue - SlippageOf(usdValue, s1),
                    swap.inTokenDecimals, swap.outTokenDecimals);
  }

  /** `getSwapMinAmount`: looks the swap up by key, then sizes it. */
  function GetSwapMinAmount(swaps: map<string, SwapConfig>, key: string, amount: int, tokenPrice: real,
                            valuation: UsdValuation): (r: Result<int>)
    ensures key !in swaps ==> r == Err(UnknownSwap(key)) && Class(r.error) == TypeError
    ensures key in swaps ==> r == SizeSwap(swaps[key], amount, tokenPrice, valuation)
  {
    if key !in swaps then Err(UnknownSwap(key))
    else SizeSwap(swaps[key], amount, tokenPrice, valuation)
  }

  /** The `swap(name, amount, minAmount)` call `createSwapTx` encodes. */
  datatype SwapCall = SwapCall(name: string, amount: int, minAmount: int)

  /** The floor below which a swap is not worth sending, in output-token units. */
  function MinSwapFloor(swap: SwapConfig): nat
  {
    MIN_SWAP_VALUE * Pow10(swap.outTokenDecimals)
  }

  /**
   * The decision of `createSwapTx`: no reward tokens to swap is an error, a
   * minimum output under $100 is an error, otherwise swap the whole balance.
   */
  function CreateSwapDecision(swaps: map<string, SwapConfig>, key: string, balance: int, tokenPrice: real,
                              valuation: UsdValuation): (r: Result<SwapCall>)
    ensures key !in swaps ==> r == Err(UnknownSwap(key))
    ensures key in swaps && balance < 1 ==> r == Err(NoRewardTokens)
    ensures key in swaps && balance >= 1 && SizeSwap(swaps[key], balance, tokenPrice, valuation).Err? ==>
              r == Err(SizeSwap(swaps[key], balance, tokenPrice, valuation).error)
    ensures key in swaps && balance >= 1 && SizeSwap(swaps[key], balance, tokenPrice, valuation).Ok? ==>
              var m := SizeSwap(swaps[key], balance, tokenPrice, valuation).value;
              (r.Ok? <==> m >= MinSwapFloor(swaps[key])) && (r.Err? ==> r.error == ValueTooLow(m))
    ensures r.Ok? ==> && key in swaps
                      && r.value.name == swaps[key].name
                      && r.value.amount == balance >= 1
                      && r.value.minAmount >= MinSwapFloor(swaps[key])
                      && SizeSwap(swaps[key], balance, tokenPrice, valuation) == Ok(r.value.minAmount)
  {
    if key !in swaps then Err(UnknownSwap(key))
    else
      var swap := swaps[key];
      if balance < 1 then Err(NoRewardTokens)
      else
        var minAmount :- GetSwapMinAmount(swaps, key, balance, tokenPrice, valuation);
        if minAmount < MinSwapFloor(swap) then Err(ValueTooLow(minAmount))
        else Ok(SwapCall(swap.name, balance, minAmount))
  }
}
