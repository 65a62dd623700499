/**
 * The SDK's transaction vocabulary, as far as the harness uses it: spendable
 * resources, the inputs that spend them, the outputs that receive assets, and
 * the provider query that selects resources.
 */
module Fuel {
  import opened Types
  import opened Bytes

  type Address = Bytes32

  /** A spendable resource: a coin (an unspent output) or a message. */
  datatype CoinType =
    | Coin(utxoId: Bytes32, owner: Address, assetId: AssetId, amount: u64)
    | Message(nonce: Bytes32, recipient: Address, amount: u64)

  /** The transaction inputs the harness builds. */
  datatype Input = ResourceSigned(resource: CoinType)

  /** The transaction outputs the harness builds. */
  datatype Output =
    | Variable(amount: u64, to: Address, assetId: AssetId)
    | Change(amount: u64, to: Address, assetId: AssetId)

  /**
   * The provider's `get_spendable_resources(owner, asset, amount)`: which
   * resources it picks is the SDK's business, so the model takes it as a given
   * function. `None` is an error result, which the harness unwraps (a panic).
   */
  type SpendableResources = (Address, AssetId, u64) -> Option<seq<CoinType>>

  /** Why building a transaction's inputs and outputs panics, and at which asset. */
  datatype Failure =
    | MissingAmount(index: nat)      // `amounts.get(index).unwrap()` on a short list
    | ProviderError(index: nat)      // the provider query for this asset returned an error
    | CoinTypeMismatch(index: nat)   // a resource for this asset is not a coin

  /** The lists concatenated in order. */
  function Concat<T>(lists: seq<seq<T>>): (r: seq<T>)
    decreases |lists|
  {
    if lists == [] then [] else Concat(lists[..|lists| - 1]) + lists[|lists| - 1]
  }

  /** Concatenating one more list appends it. */
  lemma ConcatAppend<T>(lists: seq<seq<T>>, last: seq<T>)
    ensures Concat(lists + [last]) == Concat(lists) + last
  {
    assert (lists + [last])[..|lists|] == lists;
  }

  /** Extending a prefix by the next element. */
  lemma PrefixStep<T>(all: seq<T>, prefix: seq<T>, i: nat)
    requires i < |all| && prefix == all[..i]
    ensures prefix + [all[i]] == all[..i + 1]
  {
  }

  /** Total length of lists. */
  function TotalLength<T>(lists: seq<seq<T>>): nat
    decreases |lists|
  {
    if lists == [] then 0 else TotalLength(lists[..|lists| - 1]) + |lists[|lists| - 1]|
  }

  /** A concatenation is as long as its lists together. */
  lemma {:induction false} ConcatLength<T>(lists: seq<seq<T>>)
    ensures |Concat(lists)| == TotalLength(lists)
    decreases |lists|
  {
    if lists != [] {
      ConcatLength(lists[..|lists| - 1]);
    }
  }

  /** Each resource signed for, one input per resource, in order. */
  function ResourceSignedInputs(coins: seq<CoinType>): (r: seq<Input>)
    ensures |r| == |coins|
    ensures forall k :: 0 <= k < |coins| ==> r[k] == ResourceSigned(coins[k])
    decreases |coins|
  {
    if coins == [] then [] else [ResourceSigned(coins[0])] + ResourceSignedInputs(coins[1..])
  }
}
