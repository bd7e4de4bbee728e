/**
 Redeeming the same signed proofs at a shared mint, any number of times, when requests and replies can be lost
 or late: a request reaches the mint before its call gives up, after it, or never.
 */
module RedeemRuns {
  import opened Wrappers
  import opened RedeemSwap

  /** What the mint remembers: spent secrets, and the amount signed for each blinded message. */
  datatype MintState = MintState(spent: set<string>, signed: map<string, int>)

  /** What all calls share: the wallet's abilities, the secrets of the proofs, their total and the swap fee. */
  datatype Setup = Setup(wallet: Wallet, inputs: seq<string>, total: int, fee: int)

  /** What became of a call's swap request. */
  datatype Fate = InFlight | Taken | Lost

  /** How far a call got; `answer` is what a restore returned to it. */
  datatype Phase = Sending | Checking | Restoring(flags: seq<bool>) | Done(result: RedeemResult,
    answer: Option<Restored>)

  datatype Call = Call(outputs: seq<Output>, fate: Fate, phase: Phase)

  datatype State = State(mint: MintState, calls: seq<Call>)

  datatype Action =
    | Others(after: MintState)
    | Start(outputs: seq<Output>)
    | Settle(call: nat, accepts: bool)
    | Reply(call: nat)
    | Fail(call: nat)
    | Check(call: nat, arrives: bool)
    | Restore(call: nat, answer: Option<Restored>)

  function Init(mint: MintState): State {
    State(mint, [])
  }

  function SwapAmount(x: Setup): int {
    x.total - x.fee
  }

  /** Without proofs there is nothing to swap. */
  predicate ValidSetup(x: Setup) {
    x.inputs == [] ==> SwapAmount(x) <= 0
  }

  // ---- The mint ----

  /** An atomic swap needs unspent inputs and unsigned outputs. */
  predicate CanSwap(m: MintState, inputs: seq<string>, outputs: seq<Output>) {
    && Distinct(outputs)
    && (forall i :: 0 <= i < |inputs| ==> inputs[i] !in m.spent)
    && (forall i :: 0 <= i < |outputs| ==> outputs[i].blinded !in m.signed)
  }

  function Signatures(outputs: seq<Output>): map<string, int>
    requires Distinct(outputs)
  {
    map i | 0 <= i < |outputs| :: outputs[i].blinded := outputs[i].amount
  }

  function Commit(m: MintState, inputs: seq<string>, outputs: seq<Output>): MintState
    requires CanSwap(m, inputs, outputs)
  {
    MintState(m.spent + (set i | 0 <= i < |inputs| :: inputs[i]), m.signed + Signatures(outputs))
  }

  predicate Uses(calls: seq<Call>, b: string) {
    exists i, k :: 0 <= i < |calls| && 0 <= k < |calls[i].outputs| && calls[i].outputs[k].blinded == b
  }

  /** Other clients' swaps: spending and signing only ever grow, and nobody else uses our outputs. */
  ghost predicate OthersActed(before: MintState, after: MintState, calls: seq<Call>) {
    && before.spent <= after.spent
    && (forall b :: b in before.signed ==> b in after.signed && after.signed[b] == before.signed[b])
    && (forall b :: b in after.signed && b !in before.signed ==> !Uses(calls, b))
  }

  /** A restore answers with signatures the mint made. */
  predicate Genuine(m: MintState, r: Restored) {
    forall i :: 0 <= i < |r.outputs| && i < |r.amounts| ==>
      r.outputs[i] in m.signed && m.signed[r.outputs[i]] == r.amounts[i]
  }

  function SpentFlags(m: MintState, inputs: seq<string>): seq<bool> {
    seq(|inputs|, i requires 0 <= i < |inputs| => inputs[i] in m.spent)
  }

  // ---- The client ----

  /** New outputs carry the whole swap amount in blinded messages never used before. */
  predicate FreshOutputs(x: Setup, s: State, outputs: seq<Output>) {
    && Distinct(outputs) && SumCoins(CoinsOf(outputs)) == SwapAmount(x)
    && forall k :: 0 <= k < |outputs| ==>
         outputs[k].amount > 0 && outputs[k].blinded !in s.mint.signed && !Uses(s.calls, outputs[k].blinded)
  }

  function Registered(w: Wallet, outputs: seq<Output>): Option<seq<Output>> {
    if w.hasKeyset && w.canRegisterOutputs then Some(outputs) else None
  }

  function SetCall(s: State, i: nat, c: Call): State
    requires i < |s.calls|
  {
    s.(calls := s.calls[i := c])
  }

  /** After the state check: the result, unless it depends on a restore. */
  function AfterCheck(x: Setup, s: State, c: Call, arrives: bool): Phase {
    var flags := if arrives then Some(SpentFlags(s.mint, x.inputs)) else None;
    var r := Recover(x.wallet, Registered(x.wallet, c.outputs), flags, None);
    if r == Failed(RestoreFailed, false, true) && flags.Some? then Restoring(flags.value) else Done(r, None)
  }

  function AfterRestore(x: Setup, c: Call, answer: Option<Restored>): Phase
    requires c.phase.Restoring?
  {
    Done(Recover(x.wallet, Registered(x.wallet, c.outputs), Some(c.phase.flags), answer), answer)
  }

  function OnSettle(x: Setup, s: State, i: nat, accepts: bool): State
    requires i < |s.calls|
  {
    var c := s.calls[i];
    if accepts && CanSwap(s.mint, x.inputs, c.outputs)
    then SetCall(s, i, c.(fate := Taken)).(mint := Commit(s.mint, x.inputs, c.outputs))
    else SetCall(s, i, c.(fate := Lost))
  }

  ghost predicate Enabled(x: Setup, s: State, a: Action) {
    match a
    case Others(after) => OthersActed(s.mint, after, s.calls)
    case Start(outputs) => SwapAmount(x) > 0 ==> FreshOutputs(x, s, outputs)
    case Settle(i, _) => i < |s.calls| && s.calls[i].fate.InFlight?
    case Reply(i) => i < |s.calls| && s.calls[i].phase.Sending? && s.calls[i].fate.Taken?
    case Fail(i) => i < |s.calls| && s.calls[i].phase.Sending?
    case Check(i, _) => i < |s.calls| && s.calls[i].phase.Checking?
    case Restore(i, answer) =>
      i < |s.calls| && s.calls[i].phase.Restoring? && (answer.Some? ==> Genuine(s.mint, answer.value))
  }

  ghost function Step(x: Setup, s: State, a: Action): State {
    if !Enabled(x, s, a) then s
    else
      match a
      case Others(after) => s.(mint := after)
      case Start(outputs) =>
        s.(calls := s.calls + [
          if SwapAmount(x) <= 0 then Call([], Lost, Done(Failed(FeeExceedsAmount, false, false), None))
          else Call(outputs, InFlight, Sending)])
      case Settle(i, accepts) => OnSettle(x, s, i, accepts)
      case Reply(i) =>
        var coins := CoinsOf(s.calls[i].outputs);
        SetCall(s, i, s.calls[i].(phase := Done(Redeemed(coins, SumCoins(coins), false), None)))
      case Fail(i) =>
        SetCall(s, i, s.calls[i].(phase :=
          if x.wallet.canCheckStates then Checking else Done(Failed(MintError, false, false), None)))
      case Check(i, arrives) => SetCall(s, i, s.calls[i].(phase := AfterCheck(x, s, s.calls[i], arrives)))
      case Restore(i, answer) => SetCall(s, i, s.calls[i].(phase := AfterRestore(x, s.calls[i], answer)))
  }

  ghost function Exec(x: Setup, s: State, actions: seq<Action>): State {
    if actions == [] then s else Step(x, Exec(x, s, actions[..|actions| - 1]), actions[|actions| - 1])
  }

  // ---- What every run keeps ----

  predicate AllSpent(x: Setup, m: MintState) {
    forall i :: 0 <= i < |x.inputs| ==> x.inputs[i] in m.spent
  }

  predicate AllSigned(m: MintState, outputs: seq<Output>) {
    forall k :: 0 <= k < |outputs| ==>
      outputs[k].blinded in m.signed && m.signed[outputs[k].blinded] == outputs[k].amount
  }

  predicate NoneSigned(m: MintState, outputs: seq<Output>) {
    forall k :: 0 <= k < |outputs| ==> outputs[k].blinded !in m.signed
  }

  /** Every answer for an own output names its own amount. */
  predicate AnswersOk(outputs: seq<Output>, r: Restored) {
    forall i, k ::
      0 <= i < |r.outputs| && i < |r.amounts| && 0 <= k < |outputs| && r.outputs[i] == outputs[k].blinded ==>
      r.amounts[i] == outputs[k].amount
  }

  /** Where the coins of a success come from. */
  predicate PaidBy(c: Call) {
    c.phase.Done? && c.phase.result.Redeemed? ==>
      && c.fate.Taken?
      && c.phase.result.amountSats == SumCoins(c.phase.result.coins)
      && (if c.phase.result.recovered
          then c.phase.answer.Some? && AnswersOk(c.outputs, c.phase.answer.value)
               && c.phase.result.coins == Collect(c.outputs, c.phase.answer.value, |c.phase.answer.value.outputs|)
          else c.phase.result.coins == CoinsOf(c.outputs))
  }

  predicate CallOk(x: Setup, m: MintState, c: Call) {
    && Distinct(c.outputs)
    && (c.fate.Taken? ==> SwapAmount(x) > 0 && AllSpent(x, m) && AllSigned(m, c.outputs))
    && (!c.fate.Taken? ==> NoneSigned(m, c.outputs))
    && (c.fate.InFlight? ==> SwapAmount(x) > 0)
    && (SwapAmount(x) > 0 ==> SumCoins(CoinsOf(c.outputs)) == SwapAmount(x) && PositiveAmounts(c.outputs))
    && (c.phase.Checking? ==> x.wallet.canCheckStates)
    && (c.phase.Restoring? ==> x.wallet.canCheckStates && true in c.phase.flags)
    && PaidBy(c)
  }

  predicate PositiveAmounts(outputs: seq<Output>) {
    forall k :: 0 <= k < |outputs| ==> outputs[k].amount > 0
  }

  predicate Apart(a: Call, b: Call) {
    forall i, k :: 0 <= i < |a.outputs| && 0 <= k < |b.outputs| ==> a.outputs[i].blinded != b.outputs[k].blinded
  }

  predicate CallsApart(calls: seq<Call>) {
    forall i, j :: 0 <= i < j < |calls| ==> Apart(calls[i], calls[j]) && !(calls[i].fate.Taken? && calls[j].fate.Taken?)
  }

  ghost predicate Inv(x: Setup, s: State) {
    CallsApart(s.calls) && forall i :: 0 <= i < |s.calls| ==> CallOk(x, s.mint, s.calls[i])
  }

  lemma OthersKeepInv(x: Setup, s: State, after: MintState)
    requires Inv(x, s) && OthersActed(s.mint, after, s.calls)
    ensures Inv(x, s.(mint := after))
  {
    forall i | 0 <= i < |s.calls|
      ensures CallOk(x, after, s.calls[i])
    {
      var c := s.calls[i];
      assert CallOk(x, s.mint, c);
      forall k | 0 <= k < |c.outputs|
        ensures c.outputs[k].blinded in after.signed <==> c.outputs[k].blinded in s.mint.signed
      {
        assert Uses(s.calls, c.outputs[k].blinded);
      }
    }
  }

  lemma StartKeepsInv(x: Setup, s: State, outputs: seq<Output>)
    requires Inv(x, s) && Enabled(x, s, Start(outputs))
    ensures Inv(x, Step(x, s, Start(outputs)))
  {
    var s1 := Step(x, s, Start(outputs));
    forall i | 0 <= i < |s.calls|
      ensures Apart(s.calls[i], s1.calls[|s.calls|])
    {
      if SwapAmount(x) > 0 {
        FreshIsApart(x, s, outputs, i);
      }
    }
  }

  lemma FreshIsApart(x: Setup, s: State, outputs: seq<Output>, i: nat)
    requires FreshOutputs(x, s, outputs) && i < |s.calls|
    ensures Apart(s.calls[i], Call(outputs, InFlight, Sending))
  {
    forall a, k | 0 <= a < |s.calls[i].outputs| && 0 <= k < |outputs|
      ensures s.calls[i].outputs[a].blinded != outputs[k].blinded
    {
      assert !Uses(s.calls, outputs[k].blinded);
    }
  }

  /** A call's own progress leaves its outputs and its request alone. */
  lemma PhaseKeepsInv(x: Setup, s: State, i: nat, phase: Phase)
    requires Inv(x, s) && i < |s.calls| && CallOk(x, s.mint, s.calls[i].(phase := phase))
    ensures Inv(x, SetCall(s, i, s.calls[i].(phase := phase)))
  {
    var s1 := SetCall(s, i, s.calls[i].(phase := phase));
    forall a, b | 0 <= a < b < |s1.calls|
      ensures Apart(s1.calls[a], s1.calls[b]) && !(s1.calls[a].fate.Taken? && s1.calls[b].fate.Taken?)
    {
      assert Apart(s.calls[a], s.calls[b]);
    }
  }

  lemma CommitFacts(x: Setup, m: MintState, outputs: seq<Output>)
    requires CanSwap(m, x.inputs, outputs)
    ensures var m1 := Commit(m, x.inputs, outputs);
      && AllSpent(x, m1) && AllSigned(m1, outputs)
      && (forall b :: b in m1.signed <==> b in m.signed || (exists k :: 0 <= k < |outputs| && outputs[k].blinded == b))
      && (forall b :: b in m.signed ==> m1.signed[b] == m.signed[b])
  {
    forall k | 0 <= k < |outputs|
      ensures outputs[k].blinded in Signatures(outputs) && Signatures(outputs)[outputs[k].blinded] == outputs[k].amount
    {
    }
  }

  /** While some call's request was taken, no other can be: the inputs are spent. */
  lemma SwapExcludesTaken(x: Setup, s: State, i: nat, j: nat)
    requires ValidSetup(x) && Inv(x, s) && i < |s.calls| && j < |s.calls| && s.calls[j].fate.Taken?
    ensures !CanSwap(s.mint, x.inputs, s.calls[i].outputs)
  {
    assert CallOk(x, s.mint, s.calls[j]);
    assert x.inputs[0] in s.mint.spent;
  }

  lemma OthersStayOk(x: Setup, s: State, i: nat, j: nat)
    requires ValidSetup(x) && Inv(x, s) && i < |s.calls| && j < |s.calls| && i != j
    requires CanSwap(s.mint, x.inputs, s.calls[i].outputs)
    ensures !s.calls[j].fate.Taken? && CallOk(x, Commit(s.mint, x.inputs, s.calls[i].outputs), s.calls[j])
  {
    assert CallOk(x, s.mint, s.calls[j]);
    if s.calls[j].fate.Taken? {
      SwapExcludesTaken(x, s, i, j);
    }
    NoneSignedStands(x, s, i, j);
  }

  lemma OwnTakenOk(x: Setup, m: MintState, c: Call)
    requires CallOk(x, m, c) && c.fate.InFlight? && CanSwap(m, x.inputs, c.outputs)
    ensures CallOk(x, Commit(m, x.inputs, c.outputs), c.(fate := Taken))
  {
    CommitFacts(x, m, c.outputs);
  }

  lemma FateKeepsApart(calls: seq<Call>, i: nat, fate: Fate)
    requires CallsApart(calls) && i < |calls|
    requires fate.Taken? ==> forall j :: 0 <= j < |calls| && j != i ==> !calls[j].fate.Taken?
    ensures CallsApart(calls[i := calls[i].(fate := fate)])
  {
    var after := calls[i := calls[i].(fate := fate)];
    forall a, b | 0 <= a < b < |after|
      ensures Apart(after[a], after[b]) && !(after[a].fate.Taken? && after[b].fate.Taken?)
    {
      assert Apart(calls[a], calls[b]);
    }
  }

  lemma TakeKeepsInv(x: Setup, s: State, i: nat)
    requires ValidSetup(x) && Inv(x, s) && i < |s.calls| && s.calls[i].fate.InFlight?
    requires CanSwap(s.mint, x.inputs, s.calls[i].outputs)
    ensures Inv(x, OnSettle(x, s, i, true))
  {
    var s1, c := OnSettle(x, s, i, true), s.calls[i];
    forall j | 0 <= j < |s.calls| && j != i
      ensures !s.calls[j].fate.Taken? && CallOk(x, s1.mint, s.calls[j])
    {
      OthersStayOk(x, s, i, j);
    }
    OwnTakenOk(x, s.mint, c);
    FateKeepsApart(s.calls, i, Taken);
  }

  lemma NoneSignedStands(x: Setup, s: State, i: nat, j: nat)
    requires CallsApart(s.calls) && i < |s.calls| && j < |s.calls| && i != j
    requires CanSwap(s.mint, x.inputs, s.calls[i].outputs) && NoneSigned(s.mint, s.calls[j].outputs)
    ensures NoneSigned(Commit(s.mint, x.inputs, s.calls[i].outputs), s.calls[j].outputs)
  {
    CommitFacts(x, s.mint, s.calls[i].outputs);
    assert if i < j then Apart(s.calls[i], s.calls[j]) else Apart(s.calls[j], s.calls[i]);
  }

  lemma LoseKeepsInv(x: Setup, s: State, i: nat)
    requires Inv(x, s) && i < |s.calls| && s.calls[i].fate.InFlight?
    ensures Inv(x, SetCall(s, i, s.calls[i].(fate := Lost)))
  {
    var s1 := SetCall(s, i, s.calls[i].(fate := Lost));
    assert CallOk(x, s.mint, s.calls[i]);
    assert CallOk(x, s.mint, s1.calls[i]);
    FateKeepsApart(s.calls, i, Lost);
  }

  /** A restore yields coins only on outputs of a request the mint took. */
  lemma RestoreOk(x: Setup, m: MintState, c: Call, answer: Option<Restored>)
    requires CallOk(x, m, c) && c.phase.Restoring? && (answer.Some? ==> Genuine(m, answer.value))
    ensures CallOk(x, m, c.(phase := AfterRestore(x, c, answer)))
  {
    var r := AfterRestore(x, c, answer).result;
    if r.Redeemed? {
      var coins := Collect(c.outputs, answer.value, |answer.value.outputs|);
      assert coins[0] in coins;
    }
  }

  lemma StepKeepsInv(x: Setup, s: State, a: Action)
    requires ValidSetup(x) && Inv(x, s)
    ensures Inv(x, Step(x, s, a))
  {
    if Enabled(x, s, a) {
      match a
      case Others(after) => OthersKeepInv(x, s, after);
      case Start(outputs) => StartKeepsInv(x, s, outputs);
      case Settle(i, accepts) =>
        if accepts && CanSwap(s.mint, x.inputs, s.calls[i].outputs) {
          TakeKeepsInv(x, s, i);
        } else {
          LoseKeepsInv(x, s, i);
        }
      case Restore(i, answer) =>
        RestoreOk(x, s.mint, s.calls[i], answer);
        PhaseKeepsInv(x, s, i, AfterRestore(x, s.calls[i], answer));
      case _ =>
        assert CallOk(x, s.mint, s.calls[a.call]);
        PhaseKeepsInv(x, s, a.call, Step(x, s, a).calls[a.call].phase);
    }
  }

  lemma {:induction false} EveryRunKeepsInv(x: Setup, s: State, actions: seq<Action>)
    requires ValidSetup(x) && Inv(x, s)
    ensures Inv(x, Exec(x, s, actions))
  {
    if actions != [] {
      var front := actions[..|actions| - 1];
      EveryRunKeepsInv(x, s, front);
      StepKeepsInv(x, Exec(x, s, front), actions[|actions| - 1]);
    }
  }

  lemma InitInv(x: Setup, mint: MintState)
    ensures Inv(x, Init(mint))
  {
  }

  // ---- At most one swap, at most one success ----

  predicate Succeeded(c: Call) {
    c.phase.Done? && c.phase.result.Redeemed?
  }

  /**
   Every run, however requests and replies are lost or delayed and whatever other clients do: at most one of the
   calls' requests is ever taken, and a call that reports success is the one whose request was, with coins only
   on its own outputs, each in its own amount.
   */
  lemma AtMostOneSwap(x: Setup, mint: MintState, actions: seq<Action>, i: nat, j: nat)
    requires ValidSetup(x)
    requires var s := Exec(x, Init(mint), actions); i < |s.calls| && j < |s.calls|
    ensures var s := Exec(x, Init(mint), actions);
      && (s.calls[i].fate.Taken? && s.calls[j].fate.Taken? ==> i == j)
      && (Succeeded(s.calls[i]) && Succeeded(s.calls[j]) ==> i == j)
      && (Succeeded(s.calls[i]) ==>
            && s.calls[i].fate.Taken?
            && forall coin :: coin in s.calls[i].phase.result.coins ==>
                 Output(coin.blinded, coin.amount) in s.calls[i].outputs)
  {
    InitInv(x, mint);
    EveryRunKeepsInv(x, Init(mint), actions);
    var s := Exec(x, Init(mint), actions);
    assert CallOk(x, s.mint, s.calls[i]);
    assert CallOk(x, s.mint, s.calls[j]);
    if Succeeded(s.calls[i]) {
      forall coin | coin in s.calls[i].phase.result.coins
        ensures Output(coin.blinded, coin.amount) in s.calls[i].outputs
      {
        CoinIsOwn(s.calls[i], coin);
      }
    }
  }

  lemma CoinIsOwn(c: Call, coin: Coin)
    requires PaidBy(c) && Succeeded(c) && coin in c.phase.result.coins
    ensures Output(coin.blinded, coin.amount) in c.outputs
  {
    if c.phase.result.recovered {
      var r := c.phase.answer.value;
      var k :| 0 <= k < |c.outputs| && c.outputs[k].blinded == coin.blinded;
      var i :| 0 <= i < |r.outputs| && i < |r.amounts| && r.outputs[i] == coin.blinded && r.amounts[i] == coin.amount;
      assert c.outputs[k] == Output(coin.blinded, coin.amount);
    } else {
      var k :| 0 <= k < |c.outputs| && CoinsOf(c.outputs)[k] == coin;
      assert c.outputs[k] == Output(coin.blinded, coin.amount);
    }
  }

  // ---- What calls report once a swap was taken ----

  /** How a call may end after a swap was taken: its own may succeed; no call invites a retry. */
  predicate ReportsSwap(x: Setup, r: RedeemResult, own: bool) {
    && (r.Redeemed? ==> own)
    && (r.Failed? ==> !r.retrySafe && (x.wallet.canCheckStates ==> r.uncertain))
  }

  predicate EndsWell(x: Setup, c: Call, own: bool) {
    c.phase.Done? ==> ReportsSwap(x, c.phase.result, own)
  }

  lemma FlagsOfSpent(x: Setup, m: MintState)
    requires x.inputs != [] && AllSpent(x, m)
    ensures true in SpentFlags(m, x.inputs)
  {
    assert SpentFlags(m, x.inputs)[0];
  }

  lemma StepReports(x: Setup, s: State, a: Action, i: nat, j: nat)
    requires ValidSetup(x) && Inv(x, s) && i < |s.calls| && j < |s.calls| && s.calls[i].fate.Taken?
    requires EndsWell(x, s.calls[j], i == j)
    ensures EndsWell(x, Step(x, s, a).calls[j], i == j)
  {
    assert CallOk(x, s.mint, s.calls[i]);
    assert CallOk(x, s.mint, s.calls[j]);
    FlagsOfSpent(x, s.mint);
    StepKeepsInv(x, s, a);
    var s1 := Step(x, s, a);
    assert CallOk(x, s1.mint, s1.calls[j]);
    if i != j {
      assert !s.calls[j].fate.Taken?;
      assert !s1.calls[j].fate.Taken? by {
        if Enabled(x, s, a) && a.Settle? {
          SwapExcludesTaken(x, s, a.call, i);
        }
      }
    }
  }

  /** A call that starts now and has not ended ends well. */
  lemma NewCallEndsWell(x: Setup, s: State, a: Action, own: bool)
    requires SwapAmount(x) > 0 && |s.calls| < |Step(x, s, a).calls|
    ensures EndsWell(x, Step(x, s, a).calls[|s.calls|], own)
  {
  }

  lemma CallsStay(x: Setup, s: State, a: Action, i: nat)
    requires i < |s.calls|
    ensures i < |Step(x, s, a).calls| && |Step(x, s, a).calls| <= |s.calls| + 1
    ensures s.calls[i].fate.Taken? ==> Step(x, s, a).calls[i].fate.Taken?
    ensures s.calls[i].fate.Lost? ==> Step(x, s, a).calls[i].fate.Lost?
    ensures s.calls[i].phase.Done? ==> Step(x, s, a).calls[i].phase == s.calls[i].phase
  {
  }

  /**
   Once call i's request was taken, every call that has not ended yet, and every call started later, ends without
   inviting a retry: i's own call in success or, where states can be checked, as uncertain, and any other never
   in success and, where states can be checked, always as uncertain.
   */
  lemma {:induction false} AfterTheSwap(x: Setup, s: State, more: seq<Action>, i: nat, j: nat)
    requires ValidSetup(x) && Inv(x, s) && i < |s.calls| && s.calls[i].fate.Taken?
    requires j < |s.calls| ==> !s.calls[j].phase.Done?
    ensures var s1 := Exec(x, s, more);
      i < |s1.calls| && s1.calls[i].fate.Taken? && (j < |s1.calls| ==> EndsWell(x, s1.calls[j], i == j))
  {
    if more != [] {
      var front, a := more[..|more| - 1], more[|more| - 1];
      var s1 := Exec(x, s, front);
      AfterTheSwap(x, s, front, i, j);
      EveryRunKeepsInv(x, s, front);
      CallsStay(x, s1, a, i);
      assert CallOk(x, s1.mint, s1.calls[i]);
      if j < |s1.calls| {
        StepReports(x, s1, a, i, j);
      } else if j < |Step(x, s1, a).calls| {
        NewCallEndsWell(x, s1, a, i == j);
      }
    }
  }

  // ---- What "retry safe" means ----

  predicate SaysRetrySafe(c: Call) {
    c.phase.Done? && c.phase.result.Failed? && c.phase.result.retrySafe
  }

  lemma {:induction false} FateStays(x: Setup, s: State, more: seq<Action>, i: nat)
    requires i < |s.calls| && !s.calls[i].fate.InFlight?
    ensures var s1 := Exec(x, s, more); i < |s1.calls| && s1.calls[i].fate == s.calls[i].fate
  {
    if more != [] {
      FateStays(x, s, more[..|more| - 1], i);
      CallsStay(x, Exec(x, s, more[..|more| - 1]), more[|more| - 1], i);
    }
  }

  lemma ExecOne(x: Setup, s: State, a: Action)
    ensures Exec(x, s, [a]) == Step(x, s, a)
  {
    assert [a][..0] == [];
  }

  /** When a state check says "retry safe", every input was unspent at that moment and the request not taken. */
  lemma RetrySafeFacts(x: Setup, s: State, i: nat, arrives: bool)
    requires ValidSetup(x) && Inv(x, s) && i < |s.calls| && s.calls[i].phase.Checking?
    requires SaysRetrySafe(Step(x, s, Check(i, arrives)).calls[i])
    ensures forall k :: 0 <= k < |x.inputs| ==> x.inputs[k] !in s.mint.spent
    ensures !s.calls[i].fate.Taken?
  {
    assert CallOk(x, s.mint, s.calls[i]);
    var flags := SpentFlags(s.mint, x.inputs);
    assert true !in flags;
    forall k | 0 <= k < |x.inputs|
      ensures x.inputs[k] !in s.mint.spent
    {
      assert flags[k] in flags;
    }
    if s.calls[i].fate.Taken? {
      FlagsOfSpent(x, s.mint);
    }
  }

  ghost predicate NeverTaken(x: Setup, s: State, i: nat) {
    forall more :: var s1 := Exec(x, s, more); i < |s1.calls| ==> !s1.calls[i].fate.Taken?
  }

  /**
   A call that ends "retry safe" will never be swapped exactly when its request was no longer under way at the
   state check.
   */
  lemma RetrySafeIsFinalIff(x: Setup, s: State, i: nat, arrives: bool)
    requires ValidSetup(x) && Inv(x, s) && i < |s.calls| && s.calls[i].phase.Checking?
    requires SaysRetrySafe(Step(x, s, Check(i, arrives)).calls[i])
    ensures NeverTaken(x, Step(x, s, Check(i, arrives)), i) <==> !s.calls[i].fate.InFlight?
  {
    var s1 := Step(x, s, Check(i, arrives));
    RetrySafeFacts(x, s, i, arrives);
    assert CallOk(x, s.mint, s.calls[i]);
    if s.calls[i].fate.InFlight? {
      assert CanSwap(s1.mint, x.inputs, s1.calls[i].outputs);
      ExecOne(x, s1, Settle(i, true));
      assert Exec(x, s1, [Settle(i, true)]).calls[i].fate.Taken?;
    } else {
      forall more
        ensures var s2 := Exec(x, s1, more); i < |s2.calls| ==> !s2.calls[i].fate.Taken?
      {
        FateStays(x, s1, more, i);
      }
    }
  }

  /** From the start: the call gives up, is told its inputs are unspent, and its request is taken afterwards. */
  lemma LateSwap(x: Setup, mint: MintState, outputs: seq<Output>)
    requires ValidSetup(x) && x.wallet.canCheckStates && SwapAmount(x) > 0
    requires FreshOutputs(x, Init(mint), outputs)
    requires forall k :: 0 <= k < |x.inputs| ==> x.inputs[k] !in mint.spent
    ensures var checked := Step(x, Step(x, Step(x, Init(mint), Start(outputs)), Fail(0)), Check(0, true));
      var s := Step(x, checked, Settle(0, true));
      |s.calls| == 1 && SaysRetrySafe(s.calls[0]) && s.calls[0].fate.Taken?
  {
    var s1 := Step(x, Init(mint), Start(outputs));
    assert s1.calls[0] == Call(outputs, InFlight, Sending);
    var s2 := Step(x, s1, Fail(0));
    assert true !in SpentFlags(s2.mint, x.inputs);
    var s3 := Step(x, s2, Check(0, true));
    assert CanSwap(s3.mint, x.inputs, s3.calls[0].outputs);
  }
}
