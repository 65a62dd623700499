/**
 * `scripts/add_liquidity_script/tests/utils/mod.rs`: the client-side preview of
 * how much liquidity the AMM issues for a deposit.
 */
module AddLiquidity {
  import opened Types
  import opened Bytes
  import opened HarnessMath

  const MINIMUM_LIQUIDITY: u64 := 1000

  /** An amount of one asset; the pool's issued liquidity is one of these. */
  datatype Asset = Asset(id: AssetId, amount: u64)

  /** The fields of the AMM's pool metadata that the preview reads. */
  datatype PoolMetadata = PoolMetadata(reserve0: u64, reserve1: u64, liquidity: Asset)

  /** Why the preview panics. */
  datatype PreviewError =
    | BelowMinimumLiquidity     // the `u64` subtraction of MINIMUM_LIQUIDITY underflows
    | ProportionalValueFailed   // `proportional_value` panics for one of the two assets

  function Min(a: u64, b: u64): u64 {
    if a <= b then a else b
  }

  /**
   * `preview_add_liquidity`: an empty pool issues the square root of the
   * product minus the locked minimum; a funded pool issues the smaller of the
   * two proportional shares.
   */
  function PreviewAddLiquidity(pool: PoolMetadata, asset0In: u64, asset1In: u64): (r: Result<u64, PreviewError>)
    ensures pool.liquidity.amount == 0 ==>
      (r.Ok? <==> InitialLiquidity(asset0In, asset1In) >= 1000) &&
      (r.Ok? ==> r.value == InitialLiquidity(asset0In, asset1In) - 1000) &&
      (r.Err? ==> r.error == BelowMinimumLiquidity)
    ensures pool.liquidity.amount != 0 ==>
      var p0 := ProportionalValue(asset0In, pool.liquidity.amount, pool.reserve0);
      var p1 := ProportionalValue(asset1In, pool.liquidity.amount, pool.reserve1);
      (r.Ok? <==> p0.Some? && p1.Some?) &&
      (r.Ok? ==> r.value <= p0.value && r.value <= p1.value && (r.value == p0.value || r.value == p1.value)) &&
      (r.Err? ==> r.error == ProportionalValueFailed)
  {
    var totalLiquidity := pool.liquidity.amount;
    if totalLiquidity == 0 then
      var initLiquidity := InitialLiquidity(asset0In, asset1In);
      if initLiquidity < MINIMUM_LIQUIDITY then Err(BelowMinimumLiquidity)
      else Ok(initLiquidity - MINIMUM_LIQUIDITY)
    else
      match (ProportionalValue(asset0In, totalLiquidity, pool.reserve0),
             ProportionalValue(asset1In, totalLiquidity, pool.reserve1))
      case (Some(v0), Some(v1)) => Ok(Min(v0, v1))
      case _ => Err(ProportionalValueFailed)
  }

  /** An empty pool's preview reads neither reserve. */
  lemma PreviewEmptyPoolIgnoresReserves(pool: PoolMetadata, other: PoolMetadata, asset0In: u64, asset1In: u64)
    requires pool.liquidity.amount == 0 && other.liquidity.amount == 0
    ensures PreviewAddLiquidity(pool, asset0In, asset1In) == PreviewAddLiquidity(other, asset0In, asset1In)
  {
  }

  /** Naming the pool's assets the other way round changes nothing. */
  lemma PreviewSwapSymmetric(pool: PoolMetadata, asset0In: u64, asset1In: u64)
    ensures PreviewAddLiquidity(PoolMetadata(pool.reserve1, pool.reserve0, pool.liquidity), asset1In, asset0In)
         == PreviewAddLiquidity(pool, asset0In, asset1In)
  {
    assert asset1In * asset0In == asset0In * asset1In;
  }

  /** Depositing more of the first asset never issues less (and fails no sooner). */
  lemma PreviewMonotoneInAsset0(pool: PoolMetadata, asset0In: u64, more0In: u64, asset1In: u64)
    requires asset0In <= more0In
    requires PreviewAddLiquidity(pool, more0In, asset1In).Ok?
    requires PreviewAddLiquidity(pool, asset0In, asset1In).Ok? || pool.liquidity.amount != 0
    ensures PreviewAddLiquidity(pool, asset0In, asset1In).Ok?
    ensures PreviewAddLiquidity(pool, asset0In, asset1In).value <= PreviewAddLiquidity(pool, more0In, asset1In).value
  {
    if pool.liquidity.amount == 0 {
      MulMonotone(asset0In, more0In, asset1In);
      IsqrtMonotone(asset0In * asset1In, more0In * asset1In);
    } else {
      ProportionalValueMonotone(asset0In, more0In, pool.liquidity.amount, pool.reserve0);
    }
  }

  /** Depositing more of the second asset never issues less (and fails no sooner). */
  lemma PreviewMonotoneInAsset1(pool: PoolMetadata, asset0In: u64, asset1In: u64, more1In: u64)
    requires asset1In <= more1In
    requires PreviewAddLiquidity(pool, asset0In, more1In).Ok?
    requires PreviewAddLiquidity(pool, asset0In, asset1In).Ok? || pool.liquidity.amount != 0
    ensures PreviewAddLiquidity(pool, asset0In, asset1In).Ok?
    ensures PreviewAddLiquidity(pool, asset0In, asset1In).value <= PreviewAddLiquidity(pool, asset0In, more1In).value
  {
    PreviewSwapSymmetric(pool, asset0In, asset1In);
    PreviewSwapSymmetric(pool, asset0In, more1In);
    PreviewMonotoneInAsset0(PoolMetadata(pool.reserve1, pool.reserve0, pool.liquidity), asset1In, more1In, asset0In);
  }

  /** Scaling both deposits and both reserves of a funded pool by one factor issues the same liquidity. */
  lemma PreviewScaleInvariant(pool: PoolMetadata, asset0In: u64, asset1In: u64, k: nat)
    requires pool.liquidity.amount != 0 && pool.reserve0 > 0 && pool.reserve1 > 0 && k > 0
    requires k * asset0In <= U64_MAX && k * asset1In <= U64_MAX
    requires k * pool.reserve0 <= U64_MAX && k * pool.reserve1 <= U64_MAX
    ensures PreviewAddLiquidity(PoolMetadata(k * pool.reserve0, k * pool.reserve1, pool.liquidity), k * asset0In, k * asset1In)
         == PreviewAddLiquidity(pool, asset0In, asset1In)
  {
    ProportionalValueScale(asset0In, pool.liquidity.amount, pool.reserve0, k);
    ProportionalValueScale(asset1In, pool.liquidity.amount, pool.reserve1, k);
  }

  /** First deposits the tests make: 10000 and 10000 issue 9000. */
  lemma PreviewEqualFirstDeposit(lpAsset: AssetId)
    ensures PreviewAddLiquidity(PoolMetadata(0, 0, Asset(lpAsset, 0)), 10000, 10000) == Ok(9000)
  {
    IsqrtUnique(10000 * 10000, 10000);
  }

  /** 40000 and 10000 (either way round) issue 19000. */
  lemma PreviewUnequalFirstDeposit(lpAsset: AssetId)
    ensures PreviewAddLiquidity(PoolMetadata(0, 0, Asset(lpAsset, 0)), 40000, 10000) == Ok(19000)
    ensures PreviewAddLiquidity(PoolMetadata(0, 0, Asset(lpAsset, 0)), 10000, 40000) == Ok(19000)
  {
    IsqrtUnique(40000 * 10000, 20000);
  }

  /** After the first 10000/10000 deposit, depositing 10000 and 40000 issues 10000. */
  lemma PreviewSecondDeposit(lpAsset: AssetId)
    ensures PreviewAddLiquidity(PoolMetadata(10000, 10000, Asset(lpAsset, 10000)), 10000, 40000) == Ok(10000)
  {
  }
}
