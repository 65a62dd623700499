/**
 * The `scripts` module that `test-harness/src/interface.rs` and
 * `test-harness/src/setup.rs` both define: for each asset, ask the provider
 * for coins covering the requested amount (all of which must be coins, not
 * messages), spend them as inputs, and add one placeholder variable output.
 * The two copies differ only in the amount requested when the caller gives
 * none, which is the parameter `defaultAmount` here.
 */
module Scripts {
  import opened Types
  import opened Bytes
  import opened Fuel
  import opened DataStructures

  /** `transaction_output_variable`: zero of the default asset to the zero address. */
  function TransactionOutputVariable(): (o: Output)
    ensures o.Variable? && o.amount == 0 && o.to == ZERO && o.assetId == ZERO
  {
    Variable(0, ZERO, ZERO)
  }

  /** The amount requested for asset i: the caller's, or the default when the caller gives none. */
  function RequestedAmount(amounts: Option<seq<u64>>, defaultAmount: u64, i: nat): (r: Option<u64>)
    ensures amounts.None? ==> r == Some(defaultAmount)
    ensures amounts.Some? ==> (r.Some? <==> i < |amounts.value|)
    ensures amounts.Some? && r.Some? ==> r.value == amounts.value[i]
  {
    match amounts
    case None => Some(defaultAmount)
    case Some(list) => if i < |list| then Some(list[i]) else None
  }

  /**
   * The coin-type check of `transaction_input_coin`: one signed input per
   * resource, or `None` (a panic) when a resource is not a coin.
   */
  function CoinInputs(coins: seq<CoinType>): (r: Option<seq<Input>>)
    ensures r.Some? <==> forall k :: 0 <= k < |coins| ==> coins[k].Coin?
    ensures r.Some? ==> r.value == ResourceSignedInputs(coins)
    decreases |coins|
  {
    if coins == [] then Some([])
    else if !coins[0].Coin? then None
    else
      match CoinInputs(coins[1..])
      case None => None
      case Some(rest) => Some([ResourceSigned(coins[0])] + rest)
  }

  /** What goes wrong for asset i, if anything, in the order the loop body runs. */
  function StepFailure(provider: SpendableResources, owner: Address, assets: seq<AssetId>,
                       amounts: Option<seq<u64>>, defaultAmount: u64, i: nat)
    : Option<Failure>
    requires i < |assets|
  {
    match RequestedAmount(amounts, defaultAmount, i)
    case None => Some(MissingAmount(i))
    case Some(amount) =>
      match provider(owner, assets[i], amount)
      case None => Some(ProviderError(i))
      case Some(coins) => if CoinInputs(coins).None? then Some(CoinTypeMismatch(i)) else None
  }

  /** The inputs asset i contributes (none when it fails). */
  function AssetInputs(provider: SpendableResources, owner: Address, assets: seq<AssetId>,
                       amounts: Option<seq<u64>>, defaultAmount: u64, i: nat)
    : seq<Input>
    requires i < |assets|
  {
    match RequestedAmount(amounts, defaultAmount, i)
    case None => []
    case Some(amount) => ResourceSignedInputs(provider(owner, assets[i], amount).GetOr([]))
  }

  /** The inputs each asset contributes, asset by asset. */
  function PerAssetInputs(provider: SpendableResources, owner: Address, assets: seq<AssetId>,
                          amounts: Option<seq<u64>>, defaultAmount: u64)
    : (r: seq<seq<Input>>)
    ensures |r| == |assets|
    ensures forall i :: 0 <= i < |assets| ==> r[i] == AssetInputs(provider, owner, assets, amounts, defaultAmount, i)
  {
    seq(|assets|, i requires 0 <= i < |assets| => AssetInputs(provider, owner, assets, amounts, defaultAmount, i))
  }

  /** The first n assets are all served. */
  predicate Served(provider: SpendableResources, owner: Address, assets: seq<AssetId>,
                   amounts: Option<seq<u64>>, defaultAmount: u64, n: nat)
    requires n <= |assets|
  {
    forall j :: 0 <= j < n ==> StepFailure(provider, owner, assets, amounts, defaultAmount, j).None?
  }

  /** `e` is the failure the loop meets first. */
  predicate FirstFailure(e: Failure, provider: SpendableResources, owner: Address, assets: seq<AssetId>,
                         amounts: Option<seq<u64>>, defaultAmount: u64)
  {
    && e.index < |assets|
    && StepFailure(provider, owner, assets, amounts, defaultAmount, e.index) == Some(e)
    && Served(provider, owner, assets, amounts, defaultAmount, e.index)
  }

  /** What `transaction_inputs_outputs` promises about its result `r`. */
  predicate Assembled(r: Result<TransactionParameters, Failure>, provider: SpendableResources, owner: Address,
                      assets: seq<AssetId>, amounts: Option<seq<u64>>, defaultAmount: u64)
  {
    // it succeeds exactly when every asset has an amount, a provider answer and only coins
    && (r.Ok? <==> Served(provider, owner, assets, amounts, defaultAmount, |assets|))
    // a failure is the first one the loop meets
    && (r.Err? ==> FirstFailure(r.error, provider, owner, assets, amounts, defaultAmount))
    // one placeholder variable output per asset
    && (r.Ok? ==>
          && |r.value.outputs| == |assets|
          && forall i :: 0 <= i < |assets| ==> r.value.outputs[i] == Variable(0, ZERO, ZERO))
    // the inputs are every selected coin, asset after asset
    && (r.Ok? ==> r.value.inputs == Concat(PerAssetInputs(provider, owner, assets, amounts, defaultAmount)))
  }

  /** The loop's invariant after serving the first i assets. */
  predicate Progress(provider: SpendableResources, owner: Address, assets: seq<AssetId>,
                     amounts: Option<seq<u64>>, defaultAmount: u64,
                     i: nat, done: seq<seq<Input>>, inputs: seq<Input>, outputs: seq<Output>)
  {
    && i <= |assets|
    && Served(provider, owner, assets, amounts, defaultAmount, i)
    && |outputs| == i
    && (forall j :: 0 <= j < i ==> outputs[j] == Variable(0, ZERO, ZERO))
    && done == PerAssetInputs(provider, owner, assets, amounts, defaultAmount)[..i]
    && inputs == Concat(done)
  }

  /** Serving asset i with the coins the provider returned keeps the invariant. */
  lemma ProgressStep(provider: SpendableResources, owner: Address, assets: seq<AssetId>,
                     amounts: Option<seq<u64>>, defaultAmount: u64,
                     i: nat, done: seq<seq<Input>>, inputs: seq<Input>, outputs: seq<Output>,
                     amount: u64, coins: seq<CoinType>, assetInputs: seq<Input>)
    requires Progress(provider, owner, assets, amounts, defaultAmount, i, done, inputs, outputs)
    requires i < |assets| && RequestedAmount(amounts, defaultAmount, i) == Some(amount)
    requires provider(owner, assets[i], amount) == Some(coins) && CoinInputs(coins) == Some(assetInputs)
    ensures Progress(provider, owner, assets, amounts, defaultAmount, i + 1, done + [assetInputs],
                     inputs + assetInputs, outputs + [TransactionOutputVariable()])
  {
    var perAsset := PerAssetInputs(provider, owner, assets, amounts, defaultAmount);
    assert perAsset[i] == assetInputs;
    PrefixStep(perAsset, done, i);
    ConcatAppend(done, assetInputs);
    assert StepFailure(provider, owner, assets, amounts, defaultAmount, i).None?;
  }

  lemma FailureAssembled(e: Failure, provider: SpendableResources, owner: Address, assets: seq<AssetId>,
                         amounts: Option<seq<u64>>, defaultAmount: u64)
    requires FirstFailure(e, provider, owner, assets, amounts, defaultAmount)
    ensures Assembled(Err(e), provider, owner, assets, amounts, defaultAmount)
  {
  }

  lemma SuccessAssembled(inputs: seq<Input>, outputs: seq<Output>, provider: SpendableResources, owner: Address,
                         assets: seq<AssetId>, amounts: Option<seq<u64>>, defaultAmount: u64, done: seq<seq<Input>>)
    requires Progress(provider, owner, assets, amounts, defaultAmount, |assets|, done, inputs, outputs)
    ensures Assembled(Ok(TransactionParameters(inputs, outputs)), provider, owner, assets, amounts, defaultAmount)
  {
    var perAsset := PerAssetInputs(provider, owner, assets, amounts, defaultAmount);
    assert perAsset[..|assets|] == perAsset;
  }

  /** `transaction_inputs_outputs`, with the provider passed in and `owner` the wallet's address. */
  method TransactionInputsOutputs(provider: SpendableResources, owner: Address, assets: seq<AssetId>,
                                  amounts: Option<seq<u64>>, defaultAmount: u64)
    returns (r: Result<TransactionParameters, Failure>)
    ensures Assembled(r, provider, owner, assets, amounts, defaultAmount)
  {
    var inputCoins: seq<Input> := [];
    var outputVariables: seq<Output> := [];
    var i := 0;
    ghost var done: seq<seq<Input>> := [];
    while i < |assets|
      invariant Progress(provider, owner, assets, amounts, defaultAmount, i, done, inputCoins, outputVariables)
    {
      var amount := RequestedAmount(amounts, defaultAmount, i);
      if amount.None? {
        var e := MissingAmount(i);
        FailureAssembled(e, provider, owner, assets, amounts, defaultAmount);
        return Err(e);
      }
      var coins := provider(owner, assets[i], amount.value);
      if coins.None? {
        var e := ProviderError(i);
        FailureAssembled(e, provider, owner, assets, amounts, defaultAmount);
        return Err(e);
      }
      var assetInputs := CoinInputs(coins.value);
      if assetInputs.None? {
        var e := CoinTypeMismatch(i);
        FailureAssembled(e, provider, owner, assets, amounts, defaultAmount);
        return Err(e);
      }
      ProgressStep(provider, owner, assets, amounts, defaultAmount, i, done, inputCoins, outputVariables,
                   amount.value, coins.value, assetInputs.value);
      done := done + [assetInputs.value];
      inputCoins := inputCoins + assetInputs.value;
      outputVariables := outputVariables + [TransactionOutputVariable()];
      i := i + 1;
    }
    SuccessAssembled(inputCoins, outputVariables, provider, owner, assets, amounts, defaultAmount, done);
    return Ok(TransactionParameters(inputCoins, outputVariables));
  }

  /** The contract of `TransactionInputsOutputs` leaves exactly one possible result. */
  lemma AssembledUnique(r1: Result<TransactionParameters, Failure>, r2: Result<TransactionParameters, Failure>,
                        provider: SpendableResources, owner: Address, assets: seq<AssetId>,
                        amounts: Option<seq<u64>>, defaultAmount: u64)
    requires Assembled(r1, provider, owner, assets, amounts, defaultAmount)
    requires Assembled(r2, provider, owner, assets, amounts, defaultAmount)
    ensures r1 == r2
  {
    if r1.Ok? {
      assert r1.value.outputs == r2.value.outputs;
    }
  }

  /** Supplied amounts shorter than the asset list fail, at the first asset without an amount at the latest. */
  lemma ShortAmountsFail(r: Result<TransactionParameters, Failure>, provider: SpendableResources, owner: Address,
                         assets: seq<AssetId>, list: seq<u64>, defaultAmount: u64)
    requires Assembled(r, provider, owner, assets, Some(list), defaultAmount)
    requires |list| < |assets|
    ensures r.Err? && r.error.index <= |list|
  {
    assert StepFailure(provider, owner, assets, Some(list), defaultAmount, |list|).Some?;
  }

  /** Any resource that is not a coin makes the call fail. */
  lemma MessageFails(r: Result<TransactionParameters, Failure>, provider: SpendableResources, owner: Address,
                     assets: seq<AssetId>, amounts: Option<seq<u64>>, defaultAmount: u64, i: nat, amount: u64, k: nat)
    requires Assembled(r, provider, owner, assets, amounts, defaultAmount)
    requires i < |assets| && RequestedAmount(amounts, defaultAmount, i) == Some(amount)
    requires provider(owner, assets[i], amount).Some?
    requires k < |provider(owner, assets[i], amount).value| && provider(owner, assets[i], amount).value[k].Message?
    ensures r.Err? && r.error.index <= i
  {
    assert StepFailure(provider, owner, assets, amounts, defaultAmount, i).Some?;
  }
}
