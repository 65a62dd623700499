/** `test-harness/src/data_structures.rs`: pool ids and the harness's default parameters. */
module DataStructures {
  import opened Types
  import opened Bytes
  import Utils
  import Fuel


  /** A pool is named by its two assets, the smaller one first. */
  type PoolId = (AssetId, AssetId)

  const AMOUNT_PER_COIN: u64 := 1_000_000
  const COINS_PER_ASSET: u64 := 100
  const DEADLINE: u32 := 1000
  const DEPOSIT_AMOUNTS: (u64, u64) := (10000, 40000)
  const LIQUIDITY: u64 := 20000
  const NUMBER_OF_ASSETS: u64 := 5

  /** `build_pool_id`: the two assets in ascending order. */
  function BuildPoolId(assetA: AssetId, assetB: AssetId): (r: PoolId)
    ensures r == (assetA, assetB) || r == (assetB, assetA)
    ensures LexLessEq(r.0, r.1)
  {
    if LexLess(assetA, assetB) then (assetA, assetB)
    else
      LexLessTotal(assetA, assetB);
      (assetB, assetA)
  }

  /** The same pool id whichever asset is named first. */
  lemma BuildPoolIdSymmetric(assetA: AssetId, assetB: AssetId)
    ensures BuildPoolId(assetA, assetB) == BuildPoolId(assetB, assetA)
  {
    LexLessAsymmetric(assetA, assetB);
  }

  /** Pool ids and `order_token_ids` order a pair the same way. */
  lemma BuildPoolIdAgreesWithOrderTokenIds(assetA: AssetId, assetB: AssetId)
    ensures BuildPoolId(assetA, assetB) == Utils.OrderTokenIds((assetA, assetB))
  {
  }

  datatype LiquidityParameters = LiquidityParameters(amounts: (u64, u64), deadline: u32, liquidity: u64)

  /** `LiquidityParameters::new`: each missing argument takes its default. */
  function NewLiquidityParameters(amounts: Option<(u64, u64)>, deadline: Option<u32>, liquidity: Option<u64>)
    : (r: LiquidityParameters)
    ensures amounts.Some? ==> r.amounts == amounts.value
    ensures amounts.None? ==> r.amounts == (10000, 40000)
    ensures deadline.Some? ==> r.deadline == deadline.value
    ensures deadline.None? ==> r.deadline == 1000
    ensures liquidity.Some? ==> r.liquidity == liquidity.value
    ensures liquidity.None? ==> r.liquidity == 20000
  {
    LiquidityParameters(amounts.GetOr(DEPOSIT_AMOUNTS), deadline.GetOr(DEADLINE), liquidity.GetOr(LIQUIDITY))
  }

  /** The inputs and outputs a script call is sent with. */
  datatype TransactionParameters = TransactionParameters(inputs: seq<Fuel.Input>, outputs: seq<Fuel.Output>)

  datatype WalletAssetConfiguration = WalletAssetConfiguration(
    numberOfAssets: u64, coinsPerAsset: u64, amountPerCoin: u64)

  /** `WalletAssetConfiguration::default`: what a fresh test wallet is funded with. */
  function DefaultWalletAssetConfiguration(): (r: WalletAssetConfiguration)
    ensures r.numberOfAssets == 5 && r.coinsPerAsset == 100 && r.amountPerCoin == 1_000_000
    ensures r.coinsPerAsset * r.amountPerCoin == 100_000_000
  {
    WalletAssetConfiguration(NUMBER_OF_ASSETS, COINS_PER_ASSET, AMOUNT_PER_COIN)
  }
}
