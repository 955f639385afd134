# Index-strategy and reward-swap decisions, modelled in Dafny

This project models the pure, integer-only decision core of the protocol's
automation tasks:

- **Reserve excess** (the index `Strategy`): for each rebalance target
  `{reserve address, amount}` the reserve is resolved to its underlyer through
  the reserve registry, the net excess `balance(underlyer) - amount` is
  computed, targets with a negative excess are dropped (order kept), the
  largest excess after normalising decimals is selected (first one on a tie),
  and the next balance amount names that underlyer with its balance.
- **Reward swap sizing** (`src/common/lpaccount.js`): the USD value of a
  reward-token balance (negative price rejected), the slippage value
  `usd * s / 10^4` (negative slippage rejected), the minimum output
  `(usd - slip) * 10^out / 10^in` with BigInt's truncate-toward-zero
  division (negative result rejected), and the `createSwapTx` decision: no
  tokens, or a minimum below `100 * 10^out`, means no swap; otherwise swap the
  whole balance.
- **Pure helpers**: `getClaimNames` (a length-checked positional filter) and
  `getDeployParams` (a one-hot amounts vector).
- **Static configuration** (`src/common/constants.js`): token addresses,
  `threePool`, `CURVE_POOLS` and `SWAPS` as constants with well-formedness
  lemmas.

Files and modules:

| file | module | contents |
|---|---|---|
| errors.dfy | `Errors`, `Tokens` | error kinds with their JavaScript class, `Result`, `TokenAmount` |
| fixed_point.dfy | `FixedPoint` | `Pow10`, `TruncDiv` (BigInt `/`), `Rescale` between decimal scales |
| sequences.dfy | `Sequences` | stable filter and its reference description by kept positions; duplicate-freedom and counting distinct values |
| selection.dfy | `Selection` | `getLargestAmount` |
| strategy.dfy | `Strategy` | `getUnderlyersWithNetExcess`, `getLargestNetExcess`, `getNextBalanceAmount` |
| lpaccount.dfy | `LpAccount` | `getDeployParams`, `getClaimNames`, swap sizing and the swap decision |
| constants.dfy | `Constants` | addresses, `CURVE_POOLS`, `SWAPS` |
| scenarios.dfy | `StrategyScenarios` | the strategy test cases, checked against the model |
| swap_scenarios.dfy | `SwapScenarios` | concrete CRV/CVX sizing, deploy and claim instances |

Modelling decisions:

- BigInt values are Dafny `int`. BigInt `/` truncates toward zero while
  Dafny's `/` is Euclidean, so all divisions go through `FixedPoint.TruncDiv`.
  The two differ when `usd - slip < 0` (slippage above 1.0):
  `SwapScenarios.OverSlippageTruncatesToZero` shows a value of -1 at 18 decimals
  truncating to a minimum of 0 at 6 decimals, which the negativity guard lets
  through, where Euclidean division would give -1.
- The strategy's implementation is not part of this model; its behaviour is
  taken from `test/strategy.test.js`. The title of the test at
  test/strategy.test.js:112 only excludes "net amounts that are negative", so
  a zero excess is kept and a target counts when `balance - amount >= 0`. No
  test has a net excess of exactly zero, so this boundary rests on that title
  alone.
- `getLargestNetExcess` reports USDC's 400 * 10^6 excess as 400 * 10^18, so
  the model normalises each excess from its reserve's decimals to a `decimals`
  parameter (18 in the scenarios) before the argmax, and reports the
  normalised amount.
- `getNextBalanceAmount` returns USDC with amount 500 * 10^6, USDC's balance,
  as test/strategy.test.js:308-311 expects: the chosen underlyer is paired
  with its balance, not with its excess.
- When no target is in excess, the error is the argmax's RangeError on an
  empty list (the test only asserts that some `Error` is thrown).
- The tests expect a TypeError for an unknown reserve and for an untracked
  underlyer (test/strategy.test.js:143-184); the code that throws it is not
  part of this model. An unknown index position or swap key throws a
  TypeError when `undefined` is destructured (src/common/lpaccount.js:53,
  :155-160, :188-192). All four are modelled as distinct errors of class
  `TypeError`.
- The reserve registry and the index-position table are parameters
  (`Strategy.Registry`, `LpAccount.IndexPositions`): their configuration is not
  part of this model. The scenario lemmas use a three-entry registry with
  placeholder reserve ids whose underlyers are DAI (18), USDC (6), USDT (6).
- The token price is a `real` and the price feed's USD valuation is a function
  parameter `(amount, price) -> int`; the on-chain balance and the rebalance
  targets are plain arguments.
- The configured slippage string `"0.05"` is stored already parsed at 4
  decimals, i.e. 500.

## Model

| member | source | states |
|---|---|---|
| FixedPoint.TruncDiv | src/common/lpaccount.js:145-146 | the quotient rounds toward zero: for `a >= 0` it is the largest `q >= 0` with `q*d <= a`; for `a < 0` the smallest `q <= 0` with `a <= q*d` |
| FixedPoint.TruncDivUnique | src/common/lpaccount.js:145-146 | those inequalities determine the quotient |
| FixedPoint.TruncDivNegate | src/common/lpaccount.js:170-172 | truncating division is symmetric: `(-a)/d == -(a/d)` |
| FixedPoint.TruncDivMonotone | src/common/lpaccount.js:170-172 | truncating division preserves `<=` |
| FixedPoint.RescaleUp | src/common/lpaccount.js:170-172 | converting to more decimals multiplies by `10^(to-from)` exactly |
| FixedPoint.RescaleRoundTrip | src/common/lpaccount.js:170-172 | converting up in decimals and back returns the original amount |
| FixedPoint.RescaleMonotone | src/common/lpaccount.js:170-172 | decimal conversion preserves `<=` |
| FixedPoint.RescaleNonNegative | src/common/lpaccount.js:170-172 | decimal conversion never turns a non-negative amount negative |
| Sequences.Positions | src/common/lpaccount.js:98 | the kept indices: strictly increasing, each kept, and every kept index present |
| Sequences.FilterIsSelect | src/common/lpaccount.js:98 | the filter equals the elements at exactly the kept positions, in order |
| Sequences.PositionsLength | src/common/lpaccount.js:98 | a filter keeps at most as many indices as it is given |
| Sequences.FilterMembers | src/common/lpaccount.js:98 | every filtered element is a kept input element, every kept input element is in the result, and it is no longer than the input |
| Selection.LargestIndex | test/strategy.test.js:188-222 | the index holds the greatest amount and every earlier index a strictly smaller one |
| Selection.FirstLargestUnique | test/strategy.test.js:206-222 | the first-largest index is unique, so the tie rule decides the result |
| Selection.GetLargestAmount | test/strategy.test.js:187-228 | fails with RangeError exactly on `[]`; otherwise returns the first entry with the greatest amount |
| Strategy.ResolveTarget | test/strategy.test.js:143-184 | a target resolves exactly when its reserve is registered and its underlyer has a balance; the result is keyed by the underlyer and holds balance minus target; failures are TypeErrors, never zero |
| Strategy.Resolve | test/strategy.test.js:143-184 | all targets resolve or the first failing target's error is reported; resolved entries follow target order |
| Strategy.GetUnderlyersWithNetExcess | test/strategy.test.js:54-141 | succeeds exactly when every target resolves; the result is the underlyer net excesses of exactly the targets with non-negative excess, in target order |
| Strategy.FirstLargestOfFiltered | test/strategy.test.js:231-257 | the argmax over the filtered, normalised list is the first target in excess with the largest normalised excess |
| Strategy.LargestNetExcessFacts | test/strategy.test.js:231-257 | the argmax fails exactly when no target is in excess, and otherwise picks a largest target in excess, no earlier one tying it |
| Strategy.GetLargestNetExcess | test/strategy.test.js:231-257 | TypeError on an unresolvable target; RangeError exactly when no target is in excess; otherwise the underlyer of the first target with the largest normalised excess, with that normalised amount |
| Strategy.GetNextBalanceAmount | test/strategy.test.js:260-313 | succeeds exactly when every target resolves and one is in excess; an unresolvable target is a TypeError and, once all resolve, the only error is the empty-list rejection; returns the largest-excess underlyer paired with its balance |
| LpAccount.IndexOf | src/common/lpaccount.js:54 | -1 exactly when absent, otherwise the first index holding the address |
| LpAccount.GetDeployParams | src/common/lpaccount.js:52-66 | fails when the position is unknown or does not hold the token; otherwise one slot per underlyer, the deposit in the slot of the token's first occurrence and 0 elsewhere |
| LpAccount.DeployParamsConserveAmount | src/common/lpaccount.js:62-65 | the deploy amounts add up to exactly the deposited amount |
| LpAccount.GetClaimNames | src/common/lpaccount.js:93-100 | fails exactly on a length mismatch; otherwise the zap names at exactly the positions with a positive LP balance, in order |
| LpAccount.ClaimNamesMembers | src/common/lpaccount.js:98 | a name is claimed if and only if some position holding it has a positive balance |
| LpAccount.GetSwapAmountUsdValue | src/common/lpaccount.js:126-133 | RangeError exactly for a negative price, else the price feed's valuation |
| LpAccount.GetSlippageUsdValue | src/common/lpaccount.js:135-149 | RangeError exactly for a negative slippage; for a non-negative value and slippage at most 1.0 the slippage value lies between 0 and the value |
| LpAccount.SlippageBounds | src/common/lpaccount.js:145-146 | on a non-negative value the slippage value is non-negative, and at most the value when slippage is at most 1.0 |
| LpAccount.SlippageMonotone | src/common/lpaccount.js:145-146 | on a non-negative value a larger slippage never costs less |
| LpAccount.MinAmountAtMostValue | src/common/lpaccount.js:170-172 | on a non-negative value with non-negative slippage, the minimum never exceeds the full value converted to output decimals |
| LpAccount.SizeSwap | src/common/lpaccount.js:154-179 | price, slippage and negativity guards in that order: once price and slippage are non-negative it succeeds exactly when the truncated minimum is non-negative, and otherwise fails only with the negative-minimum error; on a non-negative value a success never exceeds the full value converted to output decimals |
| LpAccount.SizeSwapSucceeds | src/common/lpaccount.js:174-176 | with a non-negative value and slippage at most 1.0 the negativity guard never fires |
| LpAccount.SizeSwapMonotoneInSlippage | src/common/lpaccount.js:165-178 | on a non-negative value, if the larger slippage sizes a swap then the smaller one does too, with a minimum output at least as large |
| LpAccount.GetSwapMinAmount | src/common/lpaccount.js:154-160 | an unknown swap key is a TypeError; otherwise the sizing of that swap |
| LpAccount.CreateSwapDecision | src/common/lpaccount.js:188-215 | rejects a balance below 1, propagates sizing errors, rejects a minimum below `100 * 10^out`; otherwise swaps the whole unchanged balance with that minimum |
| Constants.UnderlyersDistinct | src/common/constants.js:13-28 | the nine underlyer addresses are pairwise distinct |
| Constants.StableswapsDistinct | src/common/constants.js:31-42 | the nine stableswap addresses are pairwise distinct |
| Constants.CurvePoolsKeys | src/common/constants.js:56-69 | `CURVE_POOLS` is keyed by exactly the declared stableswaps |
| Sequences.DistinctCount | src/common/constants.js:56-69 | a duplicate-free key list has as many distinct keys as entries; `CurvePoolsCount` applies it to the stableswaps that key the table |
| Constants.CurvePoolsCount | src/common/constants.js:56-69 | the table's nine keys are the nine distinct stableswaps, so no entry overwrote another |
| Constants.CurvePoolsHaveNoDuplicates | src/common/constants.js:56-69 | no pool lists an underlyer twice |
| Constants.CurvePoolShapes | src/common/constants.js:56-69 | 3pool is DAI, USDC, USDT; metapools prepend their own underlyer, SUSD appends its own, IB equals 3pool, FRAXUSDC is FRAX then USDC |
| Constants.FraxUsdcOnlyPoolWithoutThreePoolEnds | src/common/constants.js:60-63 | FRAXUSDC is the one pool holding neither DAI nor USDT |
| Constants.SwapsWellFormed | src/common/constants.js:71-86 | exactly CRV and CVX, each 18 to 6 decimals at slippage 500/10^4, with distinct names `crv-to-usdc` and `cvx-to-usdc` |
| StrategyScenarios.AllBelowTargetGivesNothing | test/strategy.test.js:55-78 | every balance below its target gives no excess |
| StrategyScenarios.ExcessIsBalanceMinusTarget | test/strategy.test.js:80-110 | 50000 against 10000 gives 40000 per underlyer, in order |
| StrategyScenarios.NegativeExcessDropped | test/strategy.test.js:112-141 | the target with negative excess is dropped, the others keep their order |
| StrategyScenarios.UnconfiguredReserveIsTypeError | test/strategy.test.js:143-163 | an unregistered reserve is a TypeError |
| StrategyScenarios.MissingBalanceIsTypeError | test/strategy.test.js:165-184 | an underlyer without a balance is a TypeError |
| StrategyScenarios.LargestAmountPicksMaximum | test/strategy.test.js:188-204 | 10000, 50000, 40000 selects the 50000 entry |
| StrategyScenarios.LargestAmountKeepsFirstOfTie | test/strategy.test.js:206-222 | 10000, 50000, 50000 selects the first 50000 entry |
| StrategyScenarios.LargestAmountOfNothingIsRangeError | test/strategy.test.js:224-228 | `[]` is a RangeError |
| StrategyScenarios.LargestNetExcessIsUsdc | test/strategy.test.js:232-257 | the scenario selects USDC with 400 * 10^18 |
| StrategyScenarios.NoExcessRejects | test/strategy.test.js:261-283 | all balances below target rejects |
| StrategyScenarios.NextBalanceAmountIsUsdcBalance | test/strategy.test.js:285-313 | the scenario returns USDC with 500 * 10^6 |
| SwapScenarios.CrvWholeDollars | src/common/lpaccount.js:165-178 | CRV worth a whole number of dollars at 18 decimals sizes to 95% of it at 6 decimals |
| SwapScenarios.CrvThousandDollars | src/common/lpaccount.js:165-178 | CRV worth $1000 sizes to a minimum of 950 USDC |
| SwapScenarios.CrvThousandDollarsSwaps | src/common/lpaccount.js:196-215 | that balance is swapped in full under the name `crv-to-usdc` |
| SwapScenarios.CrvHundredDollarsTooLow | src/common/lpaccount.js:201-209 | CRV worth $100 nets 95 USDC and is rejected as too low |
| SwapScenarios.EmptyBalanceRejected | src/common/lpaccount.js:196-199 | a zero balance is rejected |
| SwapScenarios.UnknownSwapIsTypeError | src/common/lpaccount.js:155-160 | an unknown swap key is a TypeError |
| SwapScenarios.OverSlippageTruncatesToZero | src/common/lpaccount.js:170-176 | slippage 2.0 on one unit gives a minimum of 0, where Euclidean division would give -1 |
| SwapScenarios.DeployIntoThreePool | src/common/lpaccount.js:52-66 | 5 USDC into a 3pool position gives `[0, 5, 0]` |
| SwapScenarios.ClaimOnlyFunded | src/common/lpaccount.js:93-100 | balances 7, 0, 3 claim the first and third zap; mismatched lengths fail |

## Left out

- On-chain reads and transaction building (`getUnderlyerBalances`, `getZapNames`, `getLpBalances` with its catch-to-0 wrapper, `createClaimTx`, `createDeployStrategyTx`, the ABI encoding and `tx` object of `createSwapTx`): ethers contract I/O; their results are arguments here, and `Promise.all` fan-out is incidental concurrency.
- `coingecko.getTokenPrice` and `coingecko.getUsdValueUnnormalized`: not part of this model; the price is an argument and the valuation a function parameter.
- `ethers.utils.parseUnits` and `formatUnits`: library decimal-string parsing and formatting; slippage is taken already scaled to 4 decimals, and `ValueTooLow` carries the raw minimum instead of the formatted message.
- Floating-point prices: the price is a `real`, so NaN and infinities are not modelled.
- `DEPEG_THRESHOLDS` (floating-point values), `LP_ACCOUNT_ABI`, `ERC20_ABI`, and the safe, account and SNX address constants: not used by the modelled decisions.
- The reserve registry and index-position configuration: not part of this model, so they are parameters; the scenario registry uses placeholder reserve ids.
- rollup.config.js: build tooling.
- The strategy's own implementation file is not part of this model; its functions are modelled from the behaviour the tests assert, and the test harness (snapshots, mocks, signers) is left out.
