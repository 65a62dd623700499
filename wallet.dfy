/**
 * `test-harness/src/wallet.rs`: for each asset, ask the provider for coins
 * covering the requested amount, spend them all as inputs, and add one
 * zero-amount output per asset back to the wallet (a change output when coins
 * were found, a variable output when none were).
 */
module Wallet {
  import opened Types
  import opened Bytes
  import opened Fuel

  /** What goes wrong for asset i, if anything, in the order the loop body runs. */
  function StepFailure(provider: SpendableResources, owner: Address, assets: seq<AssetId>, amounts: seq<u64>, i: nat)
    : Option<Failure>
    requires i < |assets|
  {
    if i >= |amounts| then Some(MissingAmount(i))
    else if provider(owner, assets[i], amounts[i]).None? then Some(ProviderError(i))
    else None
  }

  /** The coins the provider selects for asset i (none when the query fails). */
  function AssetCoins(provider: SpendableResources, owner: Address, assets: seq<AssetId>, amounts: seq<u64>, i: nat)
    : seq<CoinType>
    requires i < |assets|
  {
    if i < |amounts| then provider(owner, assets[i], amounts[i]).GetOr([]) else []
  }

  /** The inputs each asset contributes, asset by asset. */
  function PerAssetInputs(provider: SpendableResources, owner: Address, assets: seq<AssetId>, amounts: seq<u64>)
    : (r: seq<seq<Input>>)
    ensures |r| == |assets|
    ensures forall i :: 0 <= i < |assets| ==> r[i] == ResourceSignedInputs(AssetCoins(provider, owner, assets, amounts, i))
  {
    seq(|assets|, i requires 0 <= i < |assets| => ResourceSignedInputs(AssetCoins(provider, owner, assets, amounts, i)))
  }

  /** The first i assets each have an amount and a provider answer. */
  predicate Served(provider: SpendableResources, owner: Address, assets: seq<AssetId>, amounts: seq<u64>, n: nat)
    requires n <= |assets|
  {
    forall j :: 0 <= j < n ==> StepFailure(provider, owner, assets, amounts, j).None?
  }

  /** `e` is the failure the loop meets first. */
  predicate FirstFailure(e: Failure, provider: SpendableResources, owner: Address, assets: seq<AssetId>, amounts: seq<u64>)
  {
    && e.index < |assets|
    && StepFailure(provider, owner, assets, amounts, e.index) == Some(e)
    && Served(provider, owner, assets, amounts, e.index)
  }

  /** The output for asset i: zero of that asset back to the wallet, variable exactly when no coins were found. */
  predicate OutputFor(o: Output, provider: SpendableResources, owner: Address, assets: seq<AssetId>, amounts: seq<u64>, i: nat)
    requires i < |assets|
  {
    && o.assetId == assets[i]
    && o.amount == 0
    && o.to == owner
    && (o.Variable? <==> |AssetCoins(provider, owner, assets, amounts, i)| == 0)
  }

  /** What `get_transaction_inputs_outputs` promises about its result `r`. */
  predicate Assembled(r: Result<(seq<Input>, seq<Output>), Failure>,
                      provider: SpendableResources, owner: Address, assets: seq<AssetId>, amounts: seq<u64>)
  {
    // it succeeds exactly when every asset has an amount and a provider answer
    && (r.Ok? <==> Served(provider, owner, assets, amounts, |assets|))
    // a failure is the first one the loop meets
    && (r.Err? ==> FirstFailure(r.error, provider, owner, assets, amounts))
    // one output per asset, in asset order
    && (r.Ok? ==>
          && |r.value.1| == |assets|
          && forall i :: 0 <= i < |assets| ==> OutputFor(r.value.1[i], provider, owner, assets, amounts, i))
    // the inputs are every selected coin, asset after asset
    && (r.Ok? ==> r.value.0 == Concat(PerAssetInputs(provider, owner, assets, amounts)))
  }

  /** The loop's invariant after serving the first i assets. */
  predicate Progress(provider: SpendableResources, owner: Address, assets: seq<AssetId>, amounts: seq<u64>,
                     i: nat, done: seq<seq<Input>>, inputs: seq<Input>, outputs: seq<Output>)
  {
    && i <= |assets|
    && Served(provider, owner, assets, amounts, i)
    && |outputs| == i
    && (forall j :: 0 <= j < i ==> OutputFor(outputs[j], provider, owner, assets, amounts, j))
    && done == PerAssetInputs(provider, owner, assets, amounts)[..i]
    && inputs == Concat(done)
  }

  /** Serving asset i with the coins the provider returned keeps the invariant. */
  lemma ProgressStep(provider: SpendableResources, owner: Address, assets: seq<AssetId>, amounts: seq<u64>,
                     i: nat, done: seq<seq<Input>>, inputs: seq<Input>, outputs: seq<Output>,
                     coins: seq<CoinType>, output: Output)
    requires Progress(provider, owner, assets, amounts, i, done, inputs, outputs)
    requires i < |assets| && i < |amounts| && provider(owner, assets[i], amounts[i]) == Some(coins)
    requires output == if |coins| == 0 then Variable(0, owner, assets[i]) else Change(0, owner, assets[i])
    ensures Progress(provider, owner, assets, amounts, i + 1, done + [ResourceSignedInputs(coins)],
                     inputs + ResourceSignedInputs(coins), outputs + [output])
  {
    var perAsset := PerAssetInputs(provider, owner, assets, amounts);
    assert AssetCoins(provider, owner, assets, amounts, i) == coins;
    PrefixStep(perAsset, done, i);
    ConcatAppend(done, perAsset[i]);
    ServedStep(provider, owner, assets, amounts, i);
    assert OutputFor(output, provider, owner, assets, amounts, i);
    OutputsStep(provider, owner, assets, amounts, i, outputs, output);
  }

  lemma ServedStep(provider: SpendableResources, owner: Address, assets: seq<AssetId>, amounts: seq<u64>, i: nat)
    requires i < |assets| && Served(provider, owner, assets, amounts, i)
    requires i < |amounts| && provider(owner, assets[i], amounts[i]).Some?
    ensures Served(provider, owner, assets, amounts, i + 1)
  {
    assert StepFailure(provider, owner, assets, amounts, i).None?;
  }

  lemma OutputsStep(provider: SpendableResources, owner: Address, assets: seq<AssetId>, amounts: seq<u64>,
                    i: nat, outputs: seq<Output>, output: Output)
    requires i < |assets| && |outputs| == i
    requires forall j :: 0 <= j < i ==> OutputFor(outputs[j], provider, owner, assets, amounts, j)
    requires OutputFor(output, provider, owner, assets, amounts, i)
    ensures forall j :: 0 <= j < i + 1 ==> OutputFor((outputs + [output])[j], provider, owner, assets, amounts, j)
  {
  }

  /** `get_transaction_inputs_outputs`, with the wallet's provider passed in and `owner` its address. */
  method GetTransactionInputsOutputs(provider: SpendableResources, owner: Address, assets: seq<AssetId>, amounts: seq<u64>)
    returns (r: Result<(seq<Input>, seq<Output>), Failure>)
    ensures Assembled(r, provider, owner, assets, amounts)
  {
    var inputCoins: seq<Input> := [];
    var outputVariables: seq<Output> := [];
    var i := 0;
    ghost var done: seq<seq<Input>> := [];
    while i < |assets|
      invariant Progress(provider, owner, assets, amounts, i, done, inputCoins, outputVariables)
    {
      if i >= |amounts| {
        var e := MissingAmount(i);
        FailureAssembled(e, provider, owner, assets, amounts);
        return Err(e);
      }
      var coins := provider(owner, assets[i], amounts[i]);
      if coins.None? {
        var e := ProviderError(i);
        FailureAssembled(e, provider, owner, assets, amounts);
        return Err(e);
      }
      var assetCoins := ResourceSignedInputs(coins.value);
      var output: Output;
      if |assetCoins| == 0 {
        output := Variable(0, owner, assets[i]);
      } else {
        output := Change(0, owner, assets[i]);
      }
      ProgressStep(provider, owner, assets, amounts, i, done, inputCoins, outputVariables, coins.value, output);
      done := done + [assetCoins];
      outputVariables := outputVariables + [output];
      inputCoins := inputCoins + assetCoins;
      i := i + 1;
    }
    SuccessAssembled(inputCoins, outputVariables, provider, owner, assets, amounts, done);
    return Ok((inputCoins, outputVariables));
  }

  lemma FailureAssembled(e: Failure, provider: SpendableResources, owner: Address, assets: seq<AssetId>, amounts: seq<u64>)
    requires FirstFailure(e, provider, owner, assets, amounts)
    ensures Assembled(Err(e), provider, owner, assets, amounts)
  {
  }

  lemma SuccessAssembled(inputs: seq<Input>, outputs: seq<Output>,
                         provider: SpendableResources, owner: Address, assets: seq<AssetId>, amounts: seq<u64>,
                         done: seq<seq<Input>>)
    requires Progress(provider, owner, assets, amounts, |assets|, done, inputs, outputs)
    ensures Assembled(Ok((inputs, outputs)), provider, owner, assets, amounts)
  {
    var perAsset := PerAssetInputs(provider, owner, assets, amounts);
    assert perAsset[..|assets|] == perAsset;
  }

  /** The contract of `GetTransactionInputsOutputs` leaves exactly one possible result. */
  lemma AssembledUnique(r1: Result<(seq<Input>, seq<Output>), Failure>, r2: Result<(seq<Input>, seq<Output>), Failure>,
                        provider: SpendableResources, owner: Address, assets: seq<AssetId>, amounts: seq<u64>)
    requires Assembled(r1, provider, owner, assets, amounts)
    requires Assembled(r2, provider, owner, assets, amounts)
    ensures r1 == r2
  {
    if r1.Ok? {
      var o1, o2 := r1.value.1, r2.value.1;
      forall i | 0 <= i < |assets| ensures o1[i] == o2[i] {
        assert o1[i].assetId == o2[i].assetId && o1[i].amount == o2[i].amount && o1[i].to == o2[i].to;
      }
      assert o1 == o2;
    }
  }

  /** There are as many inputs as the provider selected coins, over all assets. */
  lemma InputCount(r: Result<(seq<Input>, seq<Output>), Failure>,
                   provider: SpendableResources, owner: Address, assets: seq<AssetId>, amounts: seq<u64>)
    requires Assembled(r, provider, owner, assets, amounts) && r.Ok?
    ensures |r.value.0| == TotalLength(PerAssetInputs(provider, owner, assets, amounts))
  {
    ConcatLength(PerAssetInputs(provider, owner, assets, amounts));
  }
}
