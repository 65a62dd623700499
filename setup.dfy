/** `test-harness/src/setup.rs`, module `scripts`. */
module Setup {
  import opened Types
  import opened Bytes
  import opened Fuel
  import opened DataStructures
  import Scripts

  /** What each asset requests when the caller gives no amounts. */
  const MAXIMUM_INPUT_AMOUNT: u64 := 1_000_000

  /**
   * `transaction_inputs_outputs`: the shared loop, requesting
   * MAXIMUM_INPUT_AMOUNT of every asset when no amounts are given.
   */
  method TransactionInputsOutputs(provider: SpendableResources, owner: Address, assets: seq<AssetId>,
                                  amounts: Option<seq<u64>>)
    returns (r: Result<TransactionParameters, Failure>)
    ensures Scripts.Assembled(r, provider, owner, assets, amounts, 1_000_000)
  {
    r := Scripts.TransactionInputsOutputs(provider, owner, assets, amounts, MAXIMUM_INPUT_AMOUNT);
  }
}
