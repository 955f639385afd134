/** The static configuration: token addresses, Curve pool underlyers and reward-token swaps. */
module Constants {
  import opened Tokens
  import LpAccount
  import opened Sequences

  // Reward tokens
  const CRV_ADDRESS: Address := "0xD533a949740bb3306d119CC777fa900bA034cd52"
  const CVX_ADDRESS: Address := "0x4e3FBD56CD56c3e72c1403e103b45Db9da5B9D2B"

  // 3pool underlying
  const DAI_ADDRESS: Address := "0x6B175474E89094C44Da98b954EedeAC495271d0F"
  const USDC_ADDRESS: Address := "0xA0b86991c6218b36c1d19D4a2e9Eb0cE3606eB48"
  const USDT_ADDRESS: Address := "0xdAC17F958D2ee523a2206206994597C13D831ec7"

  // Metapool underlying
  const MUSD_ADDRESS: Address := "0xe2f2a5C287993345a840Db3B0845fbC70f5935a5"
  const FRAX_ADDRESS: Address := "0x853d955aCEf822Db058eb8505911ED77F175b99e"
  const SUSD_ADDRESS: Address := "0x57Ab1ec28D129707052df4dF418D58a2D46d5f51"
  const BUSD_ADDRESS: Address := "0x4Fabb145d64652a948d72533023f6E7A623C7C53"
  const DOLA_ADDRESS: Address := "0x865377367054516e17014CcdED1e7d814EDC9ce4"
  const MIM_ADDRESS: Address := "0x99D8a9C45b2ecA8864373A26D1459e3Dff1e17F3"

  // Stableswaps
  const THREEPOOL_STABLESWAP_ADDRESS: Address := "0xbEbc44782C7dB0a1A60Cb6fe97d0b483032FF1C7"
  const MUSD_STABLESWAP_ADDRESS: Address := "0x8474DdbE98F5aA3179B3B3F5942D724aFcdec9f6"
  const FRAX_STABLESWAP_ADDRESS: Address := "0xd632f22692FaC7611d2AA1C0D552930D43CAEd3B"
  const FRAXUSDC_STABLESWAP_ADDRESS: Address := "0xDcEF968d416a41Cdac0ED8702fAC8128A64241A2"
  const SUSD_STABLESWAP_ADDRESS: Address := "0xA5407eAE9Ba41422680e2e00537571bcC53efBfD"
  const BUSD_V2_STABLESWAP_ADDRESS: Address := "0x4807862AA8b2bF68830e4C8dc86D0e9A998e085a"
  const DOLA_STABLESWAP_ADDRESS: Address := "0xAA5A67c256e27A5d80712c51971408db3370927D"
  const MIM_STABLESWAP_ADDRESS: Address := "0x5a6A4D54456819380173272A5E8E9B9904BdF41B"
  const IB_STABLESWAP_ADDRESS: Address := "0x2dded6Da1BF5DBdF597C45fcFaa3194e53EcfeAF"

  const THREE_POOL: seq<Address> := [DAI_ADDRESS, USDC_ADDRESS, USDT_ADDRESS]

  /** Stableswap address to the underlyers it holds, in coin order. */
  const CURVE_POOLS: map<Address, seq<Address>> := map[
    THREEPOOL_STABLESWAP_ADDRESS := THREE_POOL,
    MUSD_STABLESWAP_ADDRESS := [MUSD_ADDRESS] + THREE_POOL,
    FRAX_STABLESWAP_ADDRESS := [FRAX_ADDRESS] + THREE_POOL,
    FRAXUSDC_STABLESWAP_ADDRESS := [FRAX_ADDRESS, USDC_ADDRESS],
    SUSD_STABLESWAP_ADDRESS := THREE_POOL + [SUSD_ADDRESS],
    BUSD_V2_STABLESWAP_ADDRESS := [BUSD_ADDRESS] + THREE_POOL,
    DOLA_STABLESWAP_ADDRESS := [DOLA_ADDRESS] + THREE_POOL,
    MIM_STABLESWAP_ADDRESS := [MIM_ADDRESS] + THREE_POOL,
    IB_STABLESWAP_ADDRESS := THREE_POOL
  ]

  /** Both reward swaps: 18-decimal token to 6-decimal USDC with slippage "0.05" (500 at 4 decimals). */
  const SWAPS: map<string, LpAccount.SwapConfig> := map[
    "CRV" := LpAccount.SwapConfig("crv-to-usdc", CRV_ADDRESS, 18, 6, 500),
    "CVX" := LpAccount.SwapConfig("cvx-to-usdc", CVX_ADDRESS, 18, 6, 500)
  ]

  const UNDERLYERS: seq<Address> := [
    DAI_ADDRESS, USDC_ADDRESS, USDT_ADDRESS,
    MUSD_ADDRESS, FRAX_ADDRESS, SUSD_ADDRESS, BUSD_ADDRESS, DOLA_ADDRESS, MIM_ADDRESS]

  const STABLESWAPS: seq<Address> := [
    THREEPOOL_STABLESWAP_ADDRESS, MUSD_STABLESWAP_ADDRESS, FRAX_STABLESWAP_ADDRESS,
    FRAXUSDC_STABLESWAP_ADDRESS, SUSD_STABLESWAP_ADDRESS, BUSD_V2_STABLESWAP_ADDRESS,
    DOLA_STABLESWAP_ADDRESS, MIM_STABLESWAP_ADDRESS, IB_STABLESWAP_ADDRESS]

  /** No two declared underlyer addresses coincide. */
  lemma UnderlyersDistinct()
    ensures NoDuplicates(UNDERLYERS)
  {
  }

  /** `SWAPS` has exactly CRV and CVX, each from 18 to 6 decimals at slippage 500, under distinct names. */
  lemma SwapsWellFormed()
    ensures SWAPS.Keys == {"CRV", "CVX"}
    ensures forall k :: k in SWAPS ==> && SWAPS[k].inTokenDecimals == 18
                                        && SWAPS[k].outTokenDecimals == 6
                                        && SWAPS[k].slippage == 500
    ensures SWAPS["CRV"].name == "crv-to-usdc" && SWAPS["CVX"].name == "cvx-to-usdc"
    ensures SWAPS["CRV"].name != SWAPS["CVX"].name
    ensures SWAPS["CRV"].address == CRV_ADDRESS && SWAPS["CVX"].address == CVX_ADDRESS
  {
  }

  /** No two stableswap addresses coincide. */
  lemma StableswapsDistinct()
    ensures NoDuplicates(STABLESWAPS)
  {
  }

  /** `CURVE_POOLS` is keyed by exactly the declared stableswaps. */
  lemma CurvePoolsKeys()
    ensures CURVE_POOLS.Keys == ElementsOf(STABLESWAPS)
  {
    var s := STABLESWAPS;
    assert CURVE_POOLS.Keys == {s[0], s[1], s[2], s[3], s[4], s[5], s[6], s[7], s[8]};
    assert ElementsOf(s) == {s[0], s[1], s[2], s[3], s[4], s[5], s[6], s[7], s[8]};
  }

  /** Nine stableswaps, nine pools: no entry of the table overwrites another. */
  lemma CurvePoolsCount()
    ensures |CURVE_POOLS| == |ElementsOf(STABLESWAPS)| == |STABLESWAPS| == 9
  {
    StableswapsDistinct();
    DistinctCount(STABLESWAPS);
    CurvePoolsKeys();
  }

  /** Every pool's underlyers are pairwise distinct. */
  lemma CurvePoolsHaveNoDuplicates()
    ensures forall p :: p in CURVE_POOLS ==> NoDuplicates(CURVE_POOLS[p])
  {
    UnderlyersDistinct();
    var u := UNDERLYERS;
    assert THREE_POOL == u[..3];
    assert [MUSD_ADDRESS] + THREE_POOL == [u[3]] + u[..3];
    assert [FRAX_ADDRESS] + THREE_POOL == [u[4]] + u[..3];
    assert [FRAX_ADDRESS, USDC_ADDRESS] == [u[4], u[1]];
    assert THREE_POOL + [SUSD_ADDRESS] == u[..3] + [u[5]];
    assert [BUSD_ADDRESS] + THREE_POOL == [u[6]] + u[..3];
    assert [DOLA_ADDRESS] + THREE_POOL == [u[7]] + u[..3];
    assert [MIM_ADDRESS] + THREE_POOL == [u[8]] + u[..3];
  }

  /** The metapools put their own underlyer first, SUSD last, and IB is 3pool itself. */
  lemma CurvePoolShapes()
    ensures THREE_POOL == [DAI_ADDRESS, USDC_ADDRESS, USDT_ADDRESS]
    ensures CURVE_POOLS[THREEPOOL_STABLESWAP_ADDRESS] == THREE_POOL
    ensures CURVE_POOLS[MUSD_STABLESWAP_ADDRESS] == [MUSD_ADDRESS] + THREE_POOL
    ensures CURVE_POOLS[FRAX_STABLESWAP_ADDRESS] == [FRAX_ADDRESS] + THREE_POOL
    ensures CURVE_POOLS[BUSD_V2_STABLESWAP_ADDRESS] == [BUSD_ADDRESS] + THREE_POOL
    ensures CURVE_POOLS[DOLA_STABLESWAP_ADDRESS] == [DOLA_ADDRESS] + THREE_POOL
    ensures CURVE_POOLS[MIM_STABLESWAP_ADDRESS] == [MIM_ADDRESS] + THREE_POOL
    ensures CURVE_POOLS[SUSD_STABLESWAP_ADDRESS] == THREE_POOL + [SUSD_ADDRESS]
    ensures CURVE_POOLS[IB_STABLESWAP_ADDRESS] == THREE_POOL
    ensures CURVE_POOLS[FRAXUSDC_STABLESWAP_ADDRESS] == [FRAX_ADDRESS, USDC_ADDRESS]
  {
  }

  /** FRAXUSDC is the only pool holding neither DAI nor USDT. */
  lemma FraxUsdcOnlyPoolWithoutThreePoolEnds()
    ensures forall p :: p in CURVE_POOLS ==>
              (DAI_ADDRESS !in CURVE_POOLS[p] && USDT_ADDRESS !in CURVE_POOLS[p] <==> p == FRAXUSDC_STABLESWAP_ADDRESS)
  {
  }
}
