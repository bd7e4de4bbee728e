/** The amount from the Customer's choice to the Provider's wallet. */
module Amounts {
  import opened Wrappers
  import opened Exchange
  import ExchangeCustomers
  import O = OracleDaemon
  import PaymentLock
  import R = RedeemRuns
  import RedeemAmounts
  import RedeemSwap

  /** The redeem calls on a token: its secrets in order, its total and the mint's fee for it. */
  function RedeemSetup(w: World, token: Token, wallet: RedeemSwap.Wallet): R.Setup {
    R.Setup(wallet, seq(|token.proofs|, i requires 0 <= i < |token.proofs| => token.proofs[i].secret.raw),
            PaymentLock.SumAmounts(token.proofs), w.fee(token.proofs))
  }

  /**
   Every run of the exchange in which a Provider starts work on the request of a Customer with the default
   selector, and every run of redeem calls on that job's token, with lost and late messages and other clients: a
   successful call is paid what the Customer's lock binds, which is the least qualifying offer of the Customer's
   window, the earliest of that amount, published by that Provider as its one offer for the job and within the budget,
   if it gets its coins with the reply or each output is restored once; and, when no output is restored twice, only
   then.
   */
  lemma RedeemedAmountIsLeastOffer(
    w: World, retries: nat, frost: O.FrostSetup, now: int, actions: seq<Action>, j: nat,
    wallet: RedeemSwap.Wallet, mint: R.MintState, calls: seq<R.Action>, i: nat)
    requires var s := Exec(w, Init(retries, frost, now), actions);
      && j < |s.log| && s.log[j].WorkStarted? && s.log[j].request.customer in w.customers
      && var redeem := R.Exec(RedeemSetup(w, s.log[j].token, wallet), R.Init(mint), calls);
         i < |redeem.calls| && R.Succeeded(redeem.calls[i])
    ensures var s := Exec(w, Init(retries, frost, now), actions);
      var e := s.log[j];
      var c := R.Exec(RedeemSetup(w, e.token, wallet), R.Init(mint), calls).calls[i];
      && e.request.customer in s.sessions && R.PaidBy(c)
      && var x := s.sessions[e.request.customer];
         var paid := c.phase.result.amountSats;
         && x.Closed? && x.choice.Some? && x.request.eventId == e.request.eventId
         && (RedeemAmounts.PaidInFull(c) ==>
               && paid == x.choice.value.boundAmount && 0 < paid <= x.request.maxAmount
               && OfferIn(s.log[..j], e.job, e.provider, e.request, paid)
               && ExchangeCustomers.IsLeastOffer(w, s.relay, x, e.provider, paid))
         && (RedeemAmounts.NoRepeats(c) ==> (paid == x.choice.value.boundAmount <==> RedeemAmounts.PaidInFull(c)))
  {
    var s := Exec(w, Init(retries, frost, now), actions);
    var e := s.log[j];
    var setup := RedeemSetup(w, e.token, wallet);
    ExchangeCustomers.WorkIsForTheLeastOffer(w, retries, frost, now, actions, j);
    LockBindsTheTerms(w, retries, frost, now, actions, j, wallet);
    RedeemAmounts.SuccessPaysInFullIff(setup, mint, calls, i);
  }

  /** What the swap of a started job's token is worth is the amount the Provider works for. */
  lemma LockBindsTheTerms(
    w: World, retries: nat, frost: O.FrostSetup, now: int, actions: seq<Action>, j: nat, wallet: RedeemSwap.Wallet)
    requires var s := Exec(w, Init(retries, frost, now), actions); j < |s.log| && s.log[j].WorkStarted?
    ensures var e := Exec(w, Init(retries, frost, now), actions).log[j];
      var setup := RedeemSetup(w, e.token, wallet);
      R.ValidSetup(setup) && R.SwapAmount(setup) == e.terms.amountSats
  {
    ProvidersWorkOnlyWhenCovered(w, retries, frost, now, actions, j);
  }
}
