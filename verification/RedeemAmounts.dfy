/** How much a successful redeem pays: all of its outputs, or those the restore answered, as often as it did. */
module RedeemAmounts {
  import opened Wrappers
  import opened RedeemSwap
  import opened RedeemRuns

  // ---- Sums ----

  lemma {:induction false} SumAppend(a: seq<Coin>, b: seq<Coin>)
    ensures SumCoins(a + b) == SumCoins(a) + SumCoins(b)
  {
    if b == [] {
      assert a + b == a;
    } else {
      var front := b[..|b| - 1];
      SumAppend(a, front);
      assert (a + b)[..|a + b| - 1] == a + front;
    }
  }

  lemma SumMiddle(p: seq<Coin>, x: Coin, q: seq<Coin>)
    ensures SumCoins(p + [x] + q) == SumCoins(p + q) + x.amount
  {
    assert (p + [x])[..|p|] == p;
    SumAppend(p + [x], q);
    SumAppend(p, q);
  }

  lemma MultisetMiddle(p: seq<Coin>, x: Coin, q: seq<Coin>)
    ensures multiset(p + [x] + q) == multiset(p + q) + multiset{x}
  {
  }

  /** A coin taken out of a list: the rest is worth that much less. */
  lemma TakeOut(b: seq<Coin>, x: Coin) returns (rest: seq<Coin>)
    requires x in b
    ensures SumCoins(b) == SumCoins(rest) + x.amount && multiset(b) == multiset(rest) + multiset{x}
    ensures forall c :: c in rest ==> c in b
  {
    var j :| 0 <= j < |b| && b[j] == x;
    rest := b[..j] + b[j + 1..];
    assert b == b[..j] + [x] + b[j + 1..];
    SumMiddle(b[..j], x, b[j + 1..]);
    MultisetMiddle(b[..j], x, b[j + 1..]);
  }

  lemma CancelOne(a: multiset<Coin>, b: multiset<Coin>, x: Coin)
    ensures a + multiset{x} <= b + multiset{x} <==> a <= b
    ensures a + multiset{x} == b + multiset{x} <==> a == b
  {
    if a + multiset{x} <= b + multiset{x} {
      forall c: Coin
        ensures a[c] <= b[c]
      {
        assert (a + multiset{x})[c] <= (b + multiset{x})[c];
      }
    }
    if a + multiset{x} == b + multiset{x} {
      forall c: Coin
        ensures a[c] == b[c]
      {
        assert (a + multiset{x})[c] == (b + multiset{x})[c];
      }
    }
  }

  predicate Positive(coins: seq<Coin>) {
    forall c :: c in coins ==> c.amount > 0
  }

  /** Fewer coins are worth less; the same coins, in any order, are worth the same. */
  lemma {:induction false} PartSums(a: seq<Coin>, b: seq<Coin>)
    requires multiset(a) <= multiset(b) && Positive(b)
    ensures SumCoins(a) <= SumCoins(b)
    ensures SumCoins(a) == SumCoins(b) <==> multiset(a) == multiset(b)
  {
    if a == [] {
      PositiveSum(b);
    } else {
      var x, front := a[|a| - 1], a[..|a| - 1];
      assert a == front + [x];
      assert multiset(a) == multiset(front) + multiset{x};
      assert x in multiset(b);
      var rest := TakeOut(b, x);
      CancelOne(multiset(front), multiset(rest), x);
      PartSums(front, rest);
    }
  }

  lemma {:induction false} PositiveSum(b: seq<Coin>)
    requires Positive(b)
    ensures SumCoins(b) >= 0 && (SumCoins(b) == 0 <==> b == [])
  {
    if b != [] {
      PositiveSum(b[..|b| - 1]);
    }
  }

  // ---- Restored coins ----

  /** How often the first n answers of a restore name a blinded message. */
  function Answers(r: Restored, b: string, n: nat): nat
    requires n <= |r.outputs|
  {
    if n == 0 then 0
    else Answers(r, b, n - 1) + if n - 1 < |r.amounts| && r.outputs[n - 1] == b then 1 else 0
  }

  /** Each output is answered exactly once, in any order, whatever else is answered. */
  predicate AnsweredOnce(outputs: seq<Output>, r: Restored) {
    forall k :: 0 <= k < |outputs| ==> Answers(r, outputs[k].blinded, |r.outputs|) == 1
  }

  predicate NoneRepeated(outputs: seq<Output>, r: Restored) {
    forall k :: 0 <= k < |outputs| ==> Answers(r, outputs[k].blinded, |r.outputs|) <= 1
  }

  /** Among the collected coins, an own output's coin appears as often as it was answered. */
  lemma {:induction false} CollectCounts(outputs: seq<Output>, r: Restored, n: nat, k: nat)
    requires n <= |r.outputs| && k < |outputs| && AnswersOk(outputs, r)
    ensures multiset(Collect(outputs, r, n))[Coin(outputs[k].blinded,
        outputs[k].amount)] == Answers(r, outputs[k].blinded, n)
  {
    if n > 0 {
      CollectCounts(outputs, r, n - 1, k);
      var earlier, b := Collect(outputs, r, n - 1), r.outputs[n - 1];
      if n - 1 < |r.amounts| {
        assert multiset(earlier + [Coin(b, r.amounts[n - 1])]) == multiset(earlier) + multiset{Coin(b,
          r.amounts[n - 1])};
      }
    }
  }

  /** Nothing but own coins is collected. */
  lemma CollectedAreOwn(outputs: seq<Output>, r: Restored, coin: Coin)
    requires AnswersOk(outputs, r) && coin in Collect(outputs, r, |r.outputs|)
    ensures exists k :: 0 <= k < |outputs| && coin == Coin(outputs[k].blinded, outputs[k].amount)
  {
    var k :| 0 <= k < |outputs| && outputs[k].blinded == coin.blinded;
    assert coin == Coin(outputs[k].blinded, outputs[k].amount);
  }

  lemma {:induction false} OwnCounts(outputs: seq<Output>, k: nat)
    requires Distinct(outputs) && k < |outputs|
    ensures multiset(CoinsOf(outputs))[Coin(outputs[k].blinded, outputs[k].amount)] == 1
  {
    var coins, c := CoinsOf(outputs), Coin(outputs[k].blinded, outputs[k].amount);
    assert coins == coins[..k] + ([c] + coins[k + 1..]);
    assert multiset(coins) == multiset(coins[..k]) + (multiset{c} + multiset(coins[k + 1..]));
    assert c !in coins[..k] && c !in coins[k + 1..];
  }

  lemma CoinsOfAreOwn(outputs: seq<Output>, coin: Coin)
    requires coin in CoinsOf(outputs)
    ensures exists k :: 0 <= k < |outputs| && coin == Coin(outputs[k].blinded, outputs[k].amount)
  {
    var k :| 0 <= k < |outputs| && CoinsOf(outputs)[k] == coin;
  }

  /** The restored coins are the outputs' own coins exactly when each output is answered once. */
  lemma RestoredAllIff(outputs: seq<Output>, r: Restored)
    requires Distinct(outputs) && AnswersOk(outputs, r)
    ensures multiset(Collect(outputs, r, |r.outputs|)) == multiset(CoinsOf(outputs)) <==> AnsweredOnce(outputs, r)
    ensures NoneRepeated(outputs, r) ==> multiset(Collect(outputs, r, |r.outputs|)) <= multiset(CoinsOf(outputs))
  {
    var got, own := multiset(Collect(outputs, r, |r.outputs|)), multiset(CoinsOf(outputs));
    forall k | 0 <= k < |outputs|
      ensures got[Coin(outputs[k].blinded, outputs[k].amount)] == Answers(r, outputs[k].blinded, |r.outputs|)
      ensures own[Coin(outputs[k].blinded, outputs[k].amount)] == 1
    {
      CollectCounts(outputs, r, |r.outputs|, k);
      OwnCounts(outputs, k);
    }
    forall coin | coin in got || coin in own
      ensures exists k :: 0 <= k < |outputs| && coin == Coin(outputs[k].blinded, outputs[k].amount)
    {
      if coin in got {
        CollectedAreOwn(outputs, r, coin);
      } else {
        CoinsOfAreOwn(outputs, coin);
      }
    }
    if AnsweredOnce(outputs, r) {
      assert got == own;
    }
  }

  // ---- What a success pays ----

  /** The call got the coins of all its outputs: from the reply, or from a restore that answered each once. */
  predicate PaidInFull(c: Call)
    requires Succeeded(c) && PaidBy(c)
  {
    !c.phase.result.recovered || AnsweredOnce(c.outputs, c.phase.answer.value)
  }

  /** The mint's restore did not name one of the call's outputs twice. */
  predicate NoRepeats(c: Call)
    requires Succeeded(c) && PaidBy(c)
  {
    !c.phase.result.recovered || NoneRepeated(c.outputs, c.phase.answer.value)
  }

  /**
   Every run: a successful call holds exactly the coins of its outputs if and only if they came with the reply or
   each output was restored exactly once, in any order. It is then paid the input total minus the fee; and when
   no output is restored twice, it is paid that amount only then, and less otherwise.
   */
  lemma SuccessPaysInFullIff(x: Setup, mint: MintState, actions: seq<Action>, i: nat)
    requires ValidSetup(x)
    requires var s := Exec(x, Init(mint), actions); i < |s.calls| && Succeeded(s.calls[i])
    ensures var c := Exec(x, Init(mint), actions).calls[i];
      && PaidBy(c)
      && (multiset(c.phase.result.coins) == multiset(CoinsOf(c.outputs)) <==> PaidInFull(c))
      && (PaidInFull(c) ==> c.phase.result.amountSats == SwapAmount(x))
      && (NoRepeats(c) ==>
            && c.phase.result.amountSats <= SwapAmount(x)
            && (c.phase.result.amountSats == SwapAmount(x) <==> PaidInFull(c)))
  {
    InitInv(x, mint);
    EveryRunKeepsInv(x, Init(mint), actions);
    var s := Exec(x, Init(mint), actions);
    var c := s.calls[i];
    assert CallOk(x, s.mint, c);
    var own := CoinsOf(c.outputs);
    if c.phase.result.recovered {
      var coins := Collect(c.outputs, c.phase.answer.value, |c.phase.answer.value.outputs|);
      RestoredAllIff(c.outputs, c.phase.answer.value);
      if multiset(coins) <= multiset(own) {
        PartSums(coins, own);
      }
    }
  }

  lemma PairSum(c: Coin, d: Coin)
    ensures SumCoins([c, d]) == c.amount + d.amount
  {
    assert [c, d][..1] == [c] && [c][..0] == [];
    assert SumCoins([c]) == c.amount;
  }

  function TwinOutputs(a: string, b: string, amount: int): seq<Output> {
    [Output(a, amount), Output(b, amount)]
  }

  function RepeatedAnswer(a: string, amount: int): Restored {
    Restored([a, a], [amount, amount])
  }

  lemma RepeatedAnswerMisses(a: string, b: string, amount: int)
    requires a != b
    ensures !AnsweredOnce(TwinOutputs(a, b, amount), RepeatedAnswer(a, amount))
  {
    var r := RepeatedAnswer(a, amount);
    assert Answers(r, b, 0) == 0 && Answers(r, b, 1) == 0 && Answers(r, b, 2) == 0;
    assert TwinOutputs(a, b, amount)[1].blinded == b;
  }

  lemma RepeatedAnswerCollects(a: string, b: string, amount: int)
    ensures Collect(TwinOutputs(a, b, amount), RepeatedAnswer(a, amount), 2) == [Coin(a, amount), Coin(a, amount)]
  {
    var outputs, r := TwinOutputs(a, b, amount), RepeatedAnswer(a, amount);
    assert outputs[0].blinded == a;
    assert Collect(outputs, r, 1) == [Coin(a, amount)];
  }

  /** Two outputs of one amount, one of them answered twice: the amount is right and the coins are not. */
  lemma RightAmountWrongCoins(a: string, b: string, amount: int)
    requires a != b
    ensures var outputs, r := TwinOutputs(a, b, amount), RepeatedAnswer(a, amount);
      && AnswersOk(outputs, r) && !AnsweredOnce(outputs, r)
      && SumCoins(Collect(outputs, r, |r.outputs|)) == SumCoins(CoinsOf(outputs))
  {
    RepeatedAnswerMisses(a, b, amount);
    RepeatedAnswerCollects(a, b, amount);
    assert CoinsOf(TwinOutputs(a, b, amount)) == [Coin(a, amount), Coin(b, amount)];
    PairSum(Coin(a, amount), Coin(a, amount));
    PairSum(Coin(a, amount), Coin(b, amount));
  }
}
