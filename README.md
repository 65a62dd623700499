# Mira AMM periphery test harness — a Dafny model

The repository tests add- and remove-liquidity scripts for the Mira
constant-product AMM on the Fuel network. The pool logic itself lives in
pre-built contract binaries. What the harness computes on its own, and what
this project models, is:

- the **liquidity preview** that predicts how much liquidity a deposit mints
  (`preview_add_liquidity`);
- **asset-pair canonicalisation**: pool ids, ordered token ids, sub-ids that
  follow their assets, and the 9-decimal unit conversion;
- the **default parameters** (`LiquidityParameters::new`,
  `WalletAssetConfiguration::default`);
- the **transaction assembly loops** that turn a list of assets into
  transaction inputs (the coins the provider selects) and outputs (one per
  asset). There is one in `wallet.rs` and two near-identical ones in
  `interface.rs` and `setup.rs`.

Modules follow the source files:

| module | file | source |
|---|---|---|
| `Types` | types.dfy | `u32`/`u64` ranges, `Option`, `Result` |
| `Bytes` | bytes.dfy | 32-byte ids and Rust's derived lexicographic `<` on them |
| `Utils` | utils.dfy | test-harness/src/utils.rs |
| `DataStructures` | data_structures.dfy | test-harness/src/data_structures.rs |
| `HarnessMath` | math.dfy | the harness's `math` module, ASSUMED (see below) |
| `AddLiquidity` | add_liquidity.dfy | scripts/add_liquidity_script/tests/utils/mod.rs |
| `Fuel` | fuel.dfy | the SDK's coins, inputs, outputs and provider query |
| `Wallet` | wallet.dfy | test-harness/src/wallet.rs |
| `Scripts` | scripts.dfy | the `scripts` loop shared by interface.rs and setup.rs |
| `Interface` | interface.dfy | test-harness/src/interface.rs, module `scripts` |
| `Setup` | setup.dfy | test-harness/src/setup.rs, module `scripts` |

Modelling decisions:

- **Panics are results.** Every `unwrap()` on a missing value, every `u64`
  overflow or underflow, and every `panic!` becomes an error value. This
  covers `Option`/`None`, `Result.Err` and the `Fuel.Failure` variants. It
  is not a precondition. The harness runs as debug-build tests, so `u64`
  arithmetic panics rather than wrapping.
- **The provider is a function parameter.** `get_spendable_resources`
  becomes `Fuel.SpendableResources`: owner, asset and amount in, a coin list
  or an error out. The model does not say which coins it picks.
- **Assumed helpers.** `initial_liquidity` and `proportional_value` come from
  the harness's `math` module (mod.rs:16), which is not part of this model.
  They are ASSUMED to be the integer square root of the product (`HarnessMath.InitialLiquidity`)
  and the floor of `a * b / c` (`HarnessMath.ProportionalValue`). The latter
  also fails when `c` is zero or the quotient does not fit a `u64`. The test
  expectations agree with these definitions: 10000/10000 mints 9000, and
  40000/10000 mints 19000.
- **The two `scripts` loops are one method.** interface.rs:188-218 and
  setup.rs:104-134 are the same code except for `MAXIMUM_INPUT_AMOUNT`
  (100_000 against 1_000_000). They are modelled once, as
  `Scripts.TransactionInputsOutputs`, which takes the default amount as a
  parameter. `Interface.TransactionInputsOutputs` and
  `Setup.TransactionInputsOutputs` call it with their own constant.
- **Each loop specifies itself completely.** A loop method's `ensures`
  is a predicate (`Wallet.Assembled`, `Scripts.Assembled`). It says when the
  call succeeds and which failure comes first. It also says what every output
  is and that the inputs are the selected coins, concatenated in asset
  order. `AssembledUnique` proves that this predicate allows exactly one
  result.
- `MINIMUM_LIQUIDITY` is declared in both utils.rs:10 and mod.rs:22. Both
  values are 1000, and each module keeps its own copy.

## Model

| member | source | states |
|---|---|---|
| `Bytes.LexLessIrreflexive` | test-harness/src/utils.rs:46 | no asset id is smaller than itself |
| `Bytes.LexLessAsymmetric` | test-harness/src/utils.rs:46 | of two asset ids, at most one is smaller than the other |
| `Bytes.LexLessTransitive` | test-harness/src/data_structures.rs:18 | the byte-wise order on ids is transitive |
| `Bytes.LexLessTotal` | test-harness/src/utils.rs:45-51 | two distinct ids are always ordered one way or the other |
| `Utils.To9Decimal` | test-harness/src/utils.rs:12-14 | succeeds exactly when `num <= 18_446_744_073` (otherwise the `u64` product overflows); the result is a whole multiple of 10^9 whose quotient by 10^9 is `num` |
| `Utils.OrderTokenIds` | test-harness/src/utils.rs:45-51 | the result is the pair or the pair swapped, with the first id `<=` the second |
| `Utils.OrderTokenIdsSymmetric` | test-harness/src/utils.rs:45-51 | `(a, b)` and `(b, a)` are ordered to the same pair |
| `Utils.OrderTokenIdsIdempotent` | test-harness/src/utils.rs:45-51 | ordering an ordered pair leaves it unchanged |
| `Utils.OrderSubIds` | test-harness/src/utils.rs:53-62 | the sub-ids are swapped exactly when `OrderTokenIds` swaps the asset ids; for equal asset ids they are swapped, as the `else` branch does |
| `Utils.OrderSubIdsKeepsPairing` | test-harness/src/utils.rs:45-62 | the multiset of (asset id, sub-id) pairs is the same before and after ordering |
| `Utils.OrderSubIdsFollowsAssets` | test-harness/src/utils.rs:53-62 | for distinct ids, the sub-ids come out the same whichever order the (asset, sub-id) pairs are given in |
| `DataStructures.BuildPoolId` | test-harness/src/data_structures.rs:17-23 | the pool id is the two assets, either way round, with the smaller one first |
| `DataStructures.BuildPoolIdSymmetric` | test-harness/src/data_structures.rs:17-23 | `build_pool_id(a, b) == build_pool_id(b, a)` |
| `DataStructures.BuildPoolIdAgreesWithOrderTokenIds` | test-harness/src/data_structures.rs:17-23 | a pool id orders the pair the same way `order_token_ids` does |
| `DataStructures.NewLiquidityParameters` | test-harness/src/data_structures.rs:47-55 | each supplied field is kept; a missing one gets its default: amounts (10000, 40000), deadline 1000, liquidity 20000 (lines 12-14) |
| `DataStructures.DefaultWalletAssetConfiguration` | test-harness/src/data_structures.rs:67-75 | 5 assets, 100 coins each, 1_000_000 per coin (lines 10-15), so 100_000_000 of each asset |
| `HarnessMath.Isqrt` | scripts/add_liquidity_script/tests/utils/mod.rs:27 | ASSUMED square root: `r * r <= n < (r + 1) * (r + 1)` |
| `HarnessMath.IsqrtUnique` | scripts/add_liquidity_script/tests/utils/mod.rs:27 | only one number satisfies that bracket, so the root is unique |
| `HarnessMath.IsqrtMonotone` | scripts/add_liquidity_script/tests/utils/mod.rs:27 | a larger product never has a smaller root |
| `HarnessMath.InitialLiquidity` | scripts/add_liquidity_script/tests/utils/mod.rs:16 | ASSUMED `initial_liquidity(a, b)`: the integer square root of `a * b`, which always fits a `u64` |
| `HarnessMath.ProportionalValue` | scripts/add_liquidity_script/tests/utils/mod.rs:32-33 | ASSUMED `proportional_value(n1, n2, d)`: defined exactly when `d > 0` and the quotient fits a `u64`, and then it is the floor of `n1 * n2 / d` |
| `HarnessMath.ProportionalValueMonotone` | scripts/add_liquidity_script/tests/utils/mod.rs:32-33 | a larger deposit never gives a smaller proportional value, and never fails where the larger one succeeds |
| `HarnessMath.ProportionalValueScale` | scripts/add_liquidity_script/tests/utils/mod.rs:32-33 | scaling the deposit and the reserve by the same factor does not change the proportional value |
| `AddLiquidity.PreviewAddLiquidity` | scripts/add_liquidity_script/tests/utils/mod.rs:24-37 | empty pool: `initial_liquidity - 1000`, failing exactly when that subtraction underflows. Funded pool: succeeds exactly when both proportional values exist, and is then at most each of them and equal to one of them (their minimum) |
| `AddLiquidity.PreviewEmptyPoolIgnoresReserves` | scripts/add_liquidity_script/tests/utils/mod.rs:25-29 | for an empty pool the reserves do not affect the result |
| `AddLiquidity.PreviewSwapSymmetric` | scripts/add_liquidity_script/tests/utils/mod.rs:31-34 | swapping the two (reserve, deposit) pairs does not change the result |
| `AddLiquidity.PreviewMonotoneInAsset0` | scripts/add_liquidity_script/tests/utils/mod.rs:26-35 | depositing more of asset 0 never mints less |
| `AddLiquidity.PreviewMonotoneInAsset1` | scripts/add_liquidity_script/tests/utils/mod.rs:26-35 | depositing more of asset 1 never mints less, and fails no sooner (for an empty pool, when the smaller deposit already succeeds) |
| `AddLiquidity.PreviewScaleInvariant` | scripts/add_liquidity_script/tests/utils/mod.rs:30-35 | for a funded pool, scaling both deposits and both reserves by one factor mints the same liquidity |
| `AddLiquidity.PreviewEqualFirstDeposit` | scripts/add_liquidity_script/tests/cases/success.rs:11-13 | the first deposit (10000, 10000) mints 9000 |
| `AddLiquidity.PreviewUnequalFirstDeposit` | scripts/add_liquidity_script/tests/cases/success.rs:50-52 | the first deposits (40000, 10000) and (10000, 40000) each mint 19000 |
| `AddLiquidity.PreviewSecondDeposit` | scripts/add_liquidity_script/tests/cases/success.rs:157-187 | with reserves 10000/10000 and total liquidity 10000, depositing (10000, 40000) mints 10000 |
| `Fuel.ResourceSignedInputs` | test-harness/src/wallet.rs:63-68 | one `ResourceSigned` input per returned coin, in the same order and number |
| `Wallet.GetTransactionInputsOutputs` | test-harness/src/wallet.rs:8-44 | succeeds exactly when every asset has an amount and an answer from the provider; otherwise it reports the first failing asset. On success: one output per asset, with that asset id, amount 0 and the wallet as recipient; `Variable` exactly when no coins were found and `Change` otherwise; the inputs are the coins selected for `amounts[i]`, concatenated in asset order |
| `Wallet.ProgressStep` | test-harness/src/wallet.rs:17-41 | one loop iteration keeps the loop invariant: served prefix, outputs so far, inputs equal to the concatenation so far |
| `Wallet.AssembledUnique` | test-harness/src/wallet.rs:8-44 | the contract of `GetTransactionInputsOutputs` allows exactly one result |
| `Wallet.InputCount` | test-harness/src/wallet.rs:14-40 | the number of inputs is the total number of coins selected |
| `Scripts.TransactionOutputVariable` | test-harness/src/interface.rs:180-186 | a `Variable` output of amount 0 to the zero address in the default (all-zero) asset id; setup.rs:96-102 is the same function |
| `Scripts.RequestedAmount` | test-harness/src/interface.rs:203-207 | with amounts supplied: `amounts[i]`, and missing when the list is too short; without amounts: the default |
| `Scripts.CoinInputs` | test-harness/src/interface.rs:169-175 | succeeds exactly when every resource is a `Coin`, and then gives one `ResourceSigned` input per resource, in order |
| `Scripts.TransactionInputsOutputs` | test-harness/src/interface.rs:188-218 | succeeds exactly when every asset has an amount, an answer from the provider and only coins; otherwise it reports the first failing asset. On success: one `Variable` output per asset, with amount 0, the zero address and the default asset id; the inputs are each asset's coins concatenated in order |
| `Scripts.ProgressStep` | test-harness/src/interface.rs:197-212 | one loop iteration keeps the loop invariant |
| `Scripts.AssembledUnique` | test-harness/src/interface.rs:188-218 | the contract of `TransactionInputsOutputs` allows exactly one result |
| `Scripts.ShortAmountsFail` | test-harness/src/interface.rs:203-204 | supplied amounts shorter than the asset list always make the call fail, by the first asset without an amount at the latest |
| `Scripts.MessageFails` | test-harness/src/interface.rs:171-174 | a resource that is not a coin, for any asset, makes the call fail, by that asset at the latest |
| `Interface.TransactionInputsOutputs` | test-harness/src/interface.rs:188-218 | the shared contract, with 100_000 requested per asset when no amounts are given (line 151) |
| `Setup.TransactionInputsOutputs` | test-harness/src/setup.rs:104-134 | the shared contract, with 1_000_000 requested per asset when no amounts are given (line 67) |

## Left out

- The AMM contracts: reserve accounting, minting, burning and swap maths are in external binaries, not in this repository.
- The `math` module of the harness is not part of this model. `HarnessMath.InitialLiquidity` and `HarnessMath.ProportionalValue` are assumptions, and so are their failure conditions: a zero divisor, or a quotient over `u64`.
- `get_asset_id` and `get_share_sub_id` (utils.rs:31-43): these are SHA-256 hashes computed by another crate.
- `wallet_balances_for_pool_asset`, `deploy_2_mock_tokens`, `deploy_amm`, `setup_wallet_and_provider`, the `abigen!` bindings and the `amm`/`mock` call wrappers: async network calls with nothing deterministic to model.
- How `get_spendable_resources` chooses coins: SDK behaviour, passed in as a function.
- `wallet.provider().unwrap()` (wallet.rs:13): the model receives the provider directly. The panic for a wallet with no provider is therefore not modelled.
- The difference between a Bech32 address and a plain address: both are the same 32 bytes here.
- `.await` and the async runtime: the loops are modelled as sequential code.
- Pool metadata other than `reserve_0`, `reserve_1` and `liquidity`: the preview reads nothing else.
- `SwapParameters`, `SwapResult` and `MiraAMMContract`: plain records with no operation in the modelled core.
- The test case bodies and the per-script `setup()` functions: async deploy, mint and call sequences against a test network.
- Release-build `u64` wrap-around: the model follows the debug build the tests run in, where overflow panics.
