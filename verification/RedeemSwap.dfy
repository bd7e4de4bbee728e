/** What the client decides after a swap call failed, from the state check (NUT-07) and the restore (NUT-09). */
module RedeemSwap {
  import opened Wrappers

  datatype Output = Output(blinded: string, amount: int)

  /** A proof obtained from the mint's signature on a blinded message. */
  datatype Coin = Coin(blinded: string, amount: int)

  /** Optional abilities of the injected wallet. */
  datatype Wallet = Wallet(canCheckStates: bool, hasKeyset: bool, canRegisterOutputs: bool, canRestore: bool)

  datatype Reason =
    | FeeExceedsAmount | MintError | StateUnknown | InputsUnspent | OutputsNotRegistered | RestoreFailed | RestoreEmpty

  datatype RedeemResult =
    | Redeemed(coins: seq<Coin>, amountSats: int, recovered: bool)
    | Failed(reason: Reason, retrySafe: bool, uncertain: bool)

  datatype Restored = Restored(outputs: seq<string>, amounts: seq<int>)

  function SumCoins(coins: seq<Coin>): int {
    if coins == [] then 0 else SumCoins(coins[..|coins| - 1]) + coins[|coins| - 1].amount
  }

  function CoinsOf(outputs: seq<Output>): seq<Coin> {
    seq(|outputs|, i requires 0 <= i < |outputs| => Coin(outputs[i].blinded, outputs[i].amount))
  }

  predicate Distinct(outputs: seq<Output>) {
    forall i, j :: 0 <= i < j < |outputs| ==> outputs[i].blinded != outputs[j].blinded
  }

  /** Signatures the client keeps: those answered for its own blinded messages. */
  function Collect(outputs: seq<Output>, restored: Restored, n: nat): (coins: seq<Coin>)
    requires n <= |restored.outputs|
    ensures forall c :: c in coins ==> exists i :: 0 <= i < |outputs| && outputs[i].blinded == c.blinded
    ensures forall c :: c in coins ==>
      exists i ::
        0 <= i < n && i < |restored.amounts| && restored.outputs[i] == c.blinded && restored.amounts[i] == c.amount
  {
    if n == 0 then []
    else
      var earlier := Collect(outputs, restored, n - 1);
      var b := restored.outputs[n - 1];
      if n - 1 < |restored.amounts| && exists i :: 0 <= i < |outputs| && outputs[i].blinded == b
      then earlier + [Coin(b, restored.amounts[n - 1])]
      else earlier
  }

  /** The decision after a swap call failed. `spent` and `restored` are None when the call itself failed. */
  function Recover(w: Wallet, registered: Option<seq<Output>>, spent: Option<seq<bool>>, restored: Option<Restored>)
    : RedeemResult
  {
    if !w.canCheckStates then Failed(MintError, false, false)
    else if spent.None? then Failed(StateUnknown, false, true)
    else if true !in spent.value then Failed(InputsUnspent, true, false)
    else if registered.None? || !w.hasKeyset || !w.canRestore then Failed(OutputsNotRegistered, false, true)
    else if restored.None? then Failed(RestoreFailed, false, true)
    else
      var coins := Collect(registered.value, restored.value, |restored.value.outputs|);
      if coins == [] then Failed(RestoreEmpty, false, true) else Redeemed(coins, SumCoins(coins), true)
  }

  /** The recovery as the client runs it, with its lookup table and its growing list. */
  method RecoverInterruptedRedeem(
    w: Wallet, registered: Option<seq<Output>>, spent: Option<seq<bool>>, restored: Option<Restored>)
    returns (r: RedeemResult)
    ensures r == Recover(w, registered, spent, restored)
  {
    if !w.canCheckStates {
      return Failed(MintError, false, false);
    }
    if spent.None? {
      return Failed(StateUnknown, false, true);
    }
    var anySpent := false;
    for i := 0 to |spent.value|
      invariant anySpent <==> true in spent.value[..i]
    {
      anySpent := anySpent || spent.value[i];
    }
    assert spent.value[..|spent.value|] == spent.value;
    if !anySpent {
      return Failed(InputsUnspent, true, false);
    }
    if registered.None? || !w.hasKeyset || !w.canRestore {
      return Failed(OutputsNotRegistered, false, true);
    }
    if restored.None? {
      return Failed(RestoreFailed, false, true);
    }
    var byBlindedMessage: map<string, Output> := map[];
    for i := 0 to |registered.value|
      invariant byBlindedMessage.Keys == set k | 0 <= k < i :: registered.value[k].blinded
    {
      byBlindedMessage := byBlindedMessage[registered.value[i].blinded := registered.value[i]];
    }
    var recovered: seq<Coin> := [];
    for i := 0 to |restored.value.outputs|
      invariant recovered == Collect(registered.value, restored.value, i)
    {
      if i < |restored.value.amounts| && restored.value.outputs[i] in byBlindedMessage {
        recovered := recovered + [Coin(restored.value.outputs[i], restored.value.amounts[i])];
      }
    }
    if recovered == [] {
      return Failed(RestoreEmpty, false, true);
    }
    return Redeemed(recovered, SumCoins(recovered), true);
  }

  datatype Thrown = PlainMintError | UncertainMintError

  /** The error class a failed redemption is reported with. */
  function ThrownFor(reason: Reason): Thrown {
    match reason
    case FeeExceedsAmount => PlainMintError
    case MintError => PlainMintError
    case InputsUnspent => PlainMintError
    case StateUnknown => UncertainMintError
    case OutputsNotRegistered => UncertainMintError
    case RestoreFailed => UncertainMintError
    case RestoreEmpty => UncertainMintError
  }

  /** A failed recovery is reported as Uncertain exactly when its result says so. */
  lemma ThrownMatchesResult(
    w: Wallet, registered: Option<seq<Output>>, spent: Option<seq<bool>>, restored: Option<Restored>)
    ensures var r := Recover(w, registered, spent, restored);
      r.Failed? ==> (ThrownFor(r.reason).UncertainMintError? <==> r.uncertain)
  {
  }
}
