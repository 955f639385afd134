/**
 * The concrete cases the strategy tests assert, checked against the model.
 * The reserve addresses are placeholders: the real registry is configuration
 * outside this model, and the tests only use its first three entries, whose
 * underlyers are DAI (18 decimals), USDC and USDT (6 decimals).
 */
module StrategyScenarios {
  import opened Errors
  import opened Tokens
  import opened Strategy
  import opened FixedPoint
  import Selection
  import Sequences
  import C = Constants

  const RESERVE_0: Address := "reserve-dai"
  const RESERVE_1: Address := "reserve-usdc"
  const RESERVE_2: Address := "reserve-usdt"
  const ADDRESS_ZERO: Address := "0x0000000000000000000000000000000000000000"

  const REGISTRY: Registry := map[
    RESERVE_0 := Reserve(C.DAI_ADDRESS, 18),
    RESERVE_1 := Reserve(C.USDC_ADDRESS, 6),
    RESERVE_2 := Reserve(C.USDT_ADDRESS, 6)
  ]

  /** Amounts are compared after normalising to 18 decimals. */
  const NORMALIZED_DECIMALS: nat := 18

  function Targets(a0: int, a1: int, a2: int): seq<TokenAmount>
  {
    [TokenAmount(RESERVE_0, a0), TokenAmount(RESERVE_1, a1), TokenAmount(RESERVE_2, a2)]
  }

  function ThreeBalances(dai: int, usdc: int, usdt: int): Balances
  {
    map[C.DAI_ADDRESS := dai, C.USDC_ADDRESS := usdc, C.USDT_ADDRESS := usdt]
  }

  /** With the three configured reserves, every target resolves to its underlyer's net excess. */
  lemma ResolveThree(a0: int, a1: int, a2: int, dai: int, usdc: int, usdt: int)
    ensures Resolve(REGISTRY, ThreeBalances(dai, usdc, usdt), Targets(a0, a1, a2))
            == Ok([Excess(C.DAI_ADDRESS, dai - a0, 18), Excess(C.USDC_ADDRESS, usdc - a1, 6),
                   Excess(C.USDT_ADDRESS, usdt - a2, 6)])
  {
    var b := ThreeBalances(dai, usdc, usdt);
    var t0, t1, t2 := TokenAmount(RESERVE_0, a0), TokenAmount(RESERVE_1, a1), TokenAmount(RESERVE_2, a2);
    var e0, e1, e2 := Excess(C.DAI_ADDRESS, dai - a0, 18), Excess(C.USDC_ADDRESS, usdc - a1, 6),
                      Excess(C.USDT_ADDRESS, usdt - a2, 6);
    C.UnderlyersDistinct();
    assert C.UNDERLYERS[0] == C.DAI_ADDRESS && C.UNDERLYERS[1] == C.USDC_ADDRESS && C.UNDERLYERS[2] == C.USDT_ADDRESS;
    assert b[C.DAI_ADDRESS] == dai && b[C.USDC_ADDRESS] == usdc && b[C.USDT_ADDRESS] == usdt;
    assert REGISTRY[RESERVE_0] == Reserve(C.DAI_ADDRESS, 18);
    assert REGISTRY[RESERVE_1] == Reserve(C.USDC_ADDRESS, 6);
    assert REGISTRY[RESERVE_2] == Reserve(C.USDT_ADDRESS, 6);
    assert ResolveTarget(REGISTRY, b, t0) == Ok(e0);
    assert ResolveTarget(REGISTRY, b, t1) == Ok(e1);
    assert ResolveTarget(REGISTRY, b, t2) == Ok(e2);
    var ts := Targets(a0, a1, a2);
    assert ts == [t0, t1, t2];
    assert AllResolvable(REGISTRY, b, ts);
    var r := Resolve(REGISTRY, b, ts);
    assert r.Ok? && |r.value| == 3;
    assert r.value[0] == e0 && r.value[1] == e1 && r.value[2] == e2;
    assert r.value == [e0, e1, e2];
  }

  /** The net excesses of the three configured reserves, filtered, as the strategy reports them. */
  lemma NetExcessThree(a0: int, a1: int, a2: int, dai: int, usdc: int, usdt: int)
    ensures GetUnderlyersWithNetExcess(REGISTRY, Targets(a0, a1, a2), ThreeBalances(dai, usdc, usdt))
            == Ok((if dai - a0 >= 0 then [TokenAmount(C.DAI_ADDRESS, dai - a0)] else [])
                  + (if usdc - a1 >= 0 then [TokenAmount(C.USDC_ADDRESS, usdc - a1)] else [])
                  + (if usdt - a2 >= 0 then [TokenAmount(C.USDT_ADDRESS, usdt - a2)] else []))
  {
    ResolveThree(a0, a1, a2, dai, usdc, usdt);
    var es := [Excess(C.DAI_ADDRESS, dai - a0, 18), Excess(C.USDC_ADDRESS, usdc - a1, 6),
               Excess(C.USDT_ADDRESS, usdt - a2, 6)];
    var ts := AsTokenAmounts(es);
    var ks := Kept(es);
    assert ts == [ts[0], ts[1], ts[2]] && ks == [ks[0], ks[1], ks[2]];
    Sequences.FilterThree(ts[0], ts[1], ts[2], ks[0], ks[1], ks[2]);
  }

  /** The reference view of the three configured reserves: underlyers, decimals and net excesses. */
  lemma ReferenceThree(a0: int, a1: int, a2: int, dai: int, usdc: int, usdt: int)
    ensures var b, ts := ThreeBalances(dai, usdc, usdt), Targets(a0, a1, a2);
            && AllResolvable(REGISTRY, b, ts)
            && UnderlyerOf(REGISTRY, ts[0]) == C.DAI_ADDRESS && REGISTRY[ts[0].address].decimals == 18
            && UnderlyerOf(REGISTRY, ts[1]) == C.USDC_ADDRESS && REGISTRY[ts[1].address].decimals == 6
            && UnderlyerOf(REGISTRY, ts[2]) == C.USDT_ADDRESS && REGISTRY[ts[2].address].decimals == 6
            && NetExcessOf(REGISTRY, b, ts[0]) == dai - a0
            && NetExcessOf(REGISTRY, b, ts[1]) == usdc - a1
            && NetExcessOf(REGISTRY, b, ts[2]) == usdt - a2
  {
    ResolveThree(a0, a1, a2, dai, usdc, usdt);
    var b, ts := ThreeBalances(dai, usdc, usdt), Targets(a0, a1, a2);
    assert ResolveTarget(REGISTRY, b, ts[0]).Ok? && ResolveTarget(REGISTRY, b, ts[1]).Ok?
        && ResolveTarget(REGISTRY, b, ts[2]).Ok?;
  }

  lemma AllBelowTargetGivesNothing()
    ensures GetUnderlyersWithNetExcess(REGISTRY, Targets(50000, 50000, 50000), ThreeBalances(10000, 10000, 10000)) == Ok([])
  {
    NetExcessThree(50000, 50000, 50000, 10000, 10000, 10000);
  }

  lemma ExcessIsBalanceMinusTarget()
    ensures GetUnderlyersWithNetExcess(REGISTRY, Targets(10000, 10000, 10000), ThreeBalances(50000, 50000, 50000))
            == Ok([TokenAmount(C.DAI_ADDRESS, 40000), TokenAmount(C.USDC_ADDRESS, 40000), TokenAmount(C.USDT_ADDRESS, 40000)])
  {
    NetExcessThree(10000, 10000, 10000, 50000, 50000, 50000);
    var x, y, z := TokenAmount(C.DAI_ADDRESS, 40000), TokenAmount(C.USDC_ADDRESS, 40000), TokenAmount(C.USDT_ADDRESS, 40000);
    assert [x] + [y] + [z] == [x, y, z];
  }

  lemma NegativeExcessDropped()
    ensures GetUnderlyersWithNetExcess(REGISTRY, Targets(10000, 10000, 50000), ThreeBalances(50000, 50000, 10000))
            == Ok([TokenAmount(C.DAI_ADDRESS, 40000), TokenAmount(C.USDC_ADDRESS, 40000)])
  {
    NetExcessThree(10000, 10000, 50000, 50000, 50000, 10000);
    var x, y := TokenAmount(C.DAI_ADDRESS, 40000), TokenAmount(C.USDC_ADDRESS, 40000);
    assert [x] + [y] + [] == [x, y];
  }

  lemma UnconfiguredReserveIsTypeError()
    ensures var r := GetUnderlyersWithNetExcess(
              REGISTRY,
              [TokenAmount(RESERVE_0, 10000), TokenAmount(RESERVE_1, 10000), TokenAmount(ADDRESS_ZERO, 10000)],
              ThreeBalances(50000, 50000, 50000));
            r.Err? && Class(r.error) == TypeError
  {
  }

  lemma MissingBalanceIsTypeError()
    ensures var r := GetUnderlyersWithNetExcess(
              REGISTRY, Targets(10000, 10000, 10000),
              map[C.DAI_ADDRESS := 50000, C.USDC_ADDRESS := 50000]);
            r.Err? && Class(r.error) == TypeError
  {
  }

  lemma LargestAmountPicksMaximum()
    ensures Selection.GetLargestAmount([TokenAmount(C.DAI_ADDRESS, 10000), TokenAmount(C.USDC_ADDRESS, 50000),
                                        TokenAmount(C.USDT_ADDRESS, 40000)])
            == Ok(TokenAmount(C.USDC_ADDRESS, 50000))
  {
    var xs := [TokenAmount(C.DAI_ADDRESS, 10000), TokenAmount(C.USDC_ADDRESS, 50000), TokenAmount(C.USDT_ADDRESS, 40000)];
    assert Selection.IsFirstLargest(xs, 1);
    var k :| Selection.IsFirstLargest(xs, k) && Selection.GetLargestAmount(xs).value == xs[k];
    Selection.FirstLargestUnique(xs, k, 1);
  }

  lemma LargestAmountKeepsFirstOfTie()
    ensures Selection.GetLargestAmount([TokenAmount(C.DAI_ADDRESS, 10000), TokenAmount(C.USDC_ADDRESS, 50000),
                                        TokenAmount(C.USDT_ADDRESS, 50000)])
            == Ok(TokenAmount(C.USDC_ADDRESS, 50000))
  {
    var xs := [TokenAmount(C.DAI_ADDRESS, 10000), TokenAmount(C.USDC_ADDRESS, 50000), TokenAmount(C.USDT_ADDRESS, 50000)];
    assert Selection.IsFirstLargest(xs, 1);
    var k :| Selection.IsFirstLargest(xs, k) && Selection.GetLargestAmount(xs).value == xs[k];
    Selection.FirstLargestUnique(xs, k, 1);
  }

  lemma LargestAmountOfNothingIsRangeError()
    ensures Selection.GetLargestAmount([]) == Err(EmptyAmounts)
    ensures Class(EmptyAmounts) == RangeError
  {
  }


  /** In the tests' scenario only USDC is in excess: 400 USDC, reported at 18 decimals. */
  lemma LargestNetExcessIsUsdc()
    ensures GetLargestNetExcess(REGISTRY, Targets(100 * E18, 100 * E6, 100 * E6),
                                ThreeBalances(50 * E18, 500 * E6, -100 * E6), NORMALIZED_DECIMALS)
            == Ok(TokenAmount(C.USDC_ADDRESS, 400 * E18))
  {
    var b, ts := ThreeBalances(50 * E18, 500 * E6, -100 * E6), Targets(100 * E18, 100 * E6, 100 * E6);
    ReferenceThree(100 * E18, 100 * E6, 100 * E6, 50 * E18, 500 * E6, -100 * E6);
    var r := GetLargestNetExcess(REGISTRY, ts, b, NORMALIZED_DECIMALS);
    assert NetExcessOf(REGISTRY, b, ts[1]) >= 0;
    var i :| && IsLargestNetExcess(REGISTRY, b, ts, NORMALIZED_DECIMALS, i)
             && r.value.address == UnderlyerOf(REGISTRY, ts[i])
             && r.value.amount == NormalizedExcessOf(REGISTRY, b, ts[i], NORMALIZED_DECIMALS);
    assert i == 1;
    UsdcExcessAt18Decimals();
  }

  /** 400 USDC at 6 decimals is 400 * 10^18 at 18 decimals. */
  lemma UsdcExcessAt18Decimals()
    ensures FixedPoint.Rescale(400 * E6, 6, 18) == 400 * E18
  {
    FixedPoint.RescaleUp(400 * E6, 6, 18);
    assert FixedPoint.Pow10(12) == 1000000000000;
  }

  lemma NoExcessRejects()
    ensures GetNextBalanceAmount(REGISTRY, Targets(500 * E18, 500 * E6, 500 * E6),
                                 ThreeBalances(100 * E18, 100 * E6, 100 * E6), NORMALIZED_DECIMALS)
            == Err(EmptyAmounts)
  {
    ReferenceThree(500 * E18, 500 * E6, 500 * E6, 100 * E18, 100 * E6, 100 * E6);
  }

  /** The next balance amount names USDC with its whole balance, 500 USDC. */
  lemma NextBalanceAmountIsUsdcBalance()
    ensures GetNextBalanceAmount(REGISTRY, Targets(100 * E18, 100 * E6, 100 * E6),
                                 ThreeBalances(50 * E18, 500 * E6, -100 * E6), NORMALIZED_DECIMALS)
            == Ok(TokenAmount(C.USDC_ADDRESS, 500 * E6))
  {
    LargestNetExcessIsUsdc();
    var b := ThreeBalances(50 * E18, 500 * E6, -100 * E6);
    ReferenceThree(100 * E18, 100 * E6, 100 * E6, 50 * E18, 500 * E6, -100 * E6);
    assert b[C.USDC_ADDRESS] == 500 * E6;
  }
}
