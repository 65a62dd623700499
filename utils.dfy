/** `test-harness/src/utils.rs`, module `common`: unit conversion and asset-pair ordering. */
module Utils {
  import opened Types
  import opened Bytes

  type Bits256 = Bytes32

  /** Liquidity the AMM locks away when a pool is first funded. */
  const MINIMUM_LIQUIDITY: u64 := 1000

  /** One whole token in a 9-decimal fixed-point unit. */
  const DECIMALS_9: nat := 1_000_000_000

  /** The largest whole-token count whose 9-decimal value still fits a `u64`. */
  const MAX_9_DECIMAL_INPUT: nat := 18_446_744_073

  /**
   * `to_9_decimal`: whole tokens to base units. The `u64` multiplication
   * panics on overflow (the harness is built in debug mode), modelled as `None`.
   */
  function To9Decimal(num: u64): (r: Option<u64>)
    ensures r.Some? <==> num <= MAX_9_DECIMAL_INPUT
    ensures r.Some? ==> r.value % DECIMALS_9 == 0 && r.value / DECIMALS_9 == num
  {
    if num * DECIMALS_9 <= U64_MAX then Some(num * DECIMALS_9) else None
  }

  /** `order_token_ids`: the pair with the smaller asset id first. */
  function OrderTokenIds(pair: (AssetId, AssetId)): (r: (AssetId, AssetId))
    ensures r == pair || r == (pair.1, pair.0)
    ensures LexLessEq(r.0, r.1)
  {
    if LexLess(pair.0, pair.1) then pair
    else
      LexLessTotal(pair.0, pair.1);
      (pair.1, pair.0)
  }

  /**
   * `order_sub_ids`: puts the sub-ids in the order `OrderTokenIds` puts the
   * asset ids they belong to.
   */
  function OrderSubIds(assetIds: (AssetId, AssetId), subIds: (Bits256, Bits256)): (r: (Bits256, Bits256))
    ensures (OrderTokenIds(assetIds) == assetIds && r == subIds)
         || (OrderTokenIds(assetIds) == (assetIds.1, assetIds.0) && r == (subIds.1, subIds.0))
    ensures assetIds.0 == assetIds.1 ==> r == (subIds.1, subIds.0)
  {
    LexLessIrreflexive(assetIds.0);
    if LexLess(assetIds.0, assetIds.1) then subIds else (subIds.1, subIds.0)
  }

  /** Ordering a pair does not depend on the order it is given in. */
  lemma OrderTokenIdsSymmetric(a: AssetId, b: AssetId)
    ensures OrderTokenIds((a, b)) == OrderTokenIds((b, a))
  {
    LexLessAsymmetric(a, b);
  }

  /** An ordered pair is left as it is. */
  lemma OrderTokenIdsIdempotent(pair: (AssetId, AssetId))
    ensures OrderTokenIds(OrderTokenIds(pair)) == OrderTokenIds(pair)
  {
    var r := OrderTokenIds(pair);
    if r.0 != r.1 {
      LexLessAsymmetric(r.1, r.0);
    }
  }

  /** After ordering, every sub-id is still next to the asset id it came with. */
  lemma OrderSubIdsKeepsPairing(assetIds: (AssetId, AssetId), subIds: (Bits256, Bits256))
    ensures var ids, subs := OrderTokenIds(assetIds), OrderSubIds(assetIds, subIds);
      multiset{(ids.0, subs.0), (ids.1, subs.1)}
        == multiset{(assetIds.0, subIds.0), (assetIds.1, subIds.1)}
  {
  }

  /**
   * In particular the sub-id that ends up first is the one given with the
   * smaller asset id, whichever order the pair came in.
   */
  lemma OrderSubIdsFollowsAssets(a: AssetId, b: AssetId, subA: Bits256, subB: Bits256)
    requires a != b
    ensures OrderSubIds((a, b), (subA, subB)) == OrderSubIds((b, a), (subB, subA))
  {
    LexLessAsymmetric(a, b);
    LexLessTotal(a, b);
  }
}
