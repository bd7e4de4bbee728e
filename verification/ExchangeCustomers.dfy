/**
 Customers that use the default offer selector, in every run of the exchange: what their selections carry,
 and so what a Provider they chose is paid.
 */
module ExchangeCustomers {
  import opened Wrappers
  import opened Exchange
  import Offers
  import O = OracleDaemon

  /** The Customer's request is closed with a choice of this Provider at this amount. */
  ghost predicate Settles(
    sessions: map<string, Session>, customer: string, eventId: string, provider: string, amount: int, maxAmount: nat)
  {
    && customer in sessions
    && var x := sessions[customer];
       && x.Closed? && x.choice.Some? && x.choice == ChoiceFrom(x, x.choice.value.boundAmount)
       && x.request.eventId == eventId && x.request.maxAmount == maxAmount
       && x.choice.value.offer.provider == provider && x.choice.value.offer.amountSats == amount
  }

  ghost predicate SessionsOk(sessions: map<string, Session>) {
    forall c :: c in sessions ==> sessions[c].request.customer == c
  }

  ghost predicate SelectionsOk(w: World, s: State) {
    forall m :: m in s.relay && m.Selection? && m.author in w.customers ==>
      Settles(s.sessions, m.author, m.requestEventId, m.provider, m.execution.amount, m.execution.maxAmount)
  }

  predicate IsChosen(job: Job) {
    !job.stage.Offered? && !job.stage.Finished?
  }

  ghost predicate JobsSettled(w: World, s: State) {
    forall j :: j in s.jobs && IsChosen(s.jobs[j]) && s.jobs[j].request.customer in w.customers ==>
      JobSettled(s.sessions, s.jobs[j])
  }

  ghost predicate JobSettled(sessions: map<string, Session>, job: Job) {
    Settles(sessions, job.request.customer, job.request.eventId, job.provider, job.amount, job.request.maxAmount)
  }

  ghost predicate WorkSettled(sessions: map<string, Session>, e: Event)
    requires e.WorkStarted?
  {
    Settles(sessions, e.request.customer, e.request.eventId, e.provider, e.terms.amountSats, e.request.maxAmount)
  }

  ghost predicate WorksSettled(w: World, s: State) {
    forall k :: 0 <= k < |s.log| && s.log[k].WorkStarted? && s.log[k].request.customer in w.customers ==>
      WorkSettled(s.sessions, s.log[k])
  }

  ghost predicate CustomerInv(w: World, s: State) {
    SessionsOk(s.sessions) && SelectionsOk(w, s) && JobsSettled(w, s) && WorksSettled(w, s)
  }

  /** Sessions only grow, and a closed one never changes. */
  predicate SessionsGrow(before: map<string, Session>, after: map<string, Session>) {
    forall c :: c in before && before[c].Closed? ==> c in after && after[c] == before[c]
  }

  lemma SettlesStands(before: map<string, Session>, after: map<string, Session>,
                      customer: string, eventId: string, provider: string, amount: int, maxAmount: nat)
    requires SessionsGrow(before, after) && Settles(before, customer, eventId, provider, amount, maxAmount)
    ensures Settles(after, customer, eventId, provider, amount, maxAmount)
  {
  }

  /** A step that adds no selection, chooses no job and starts no work, whatever it adds to the sessions. */
  lemma QuietKeepsInv(w: World, s: State, s1: State)
    requires CustomerInv(w, s) && SessionsGrow(s.sessions, s1.sessions) && SessionsOk(s1.sessions)
    requires forall m :: m in s1.relay && m.Selection? && m.author in w.customers ==> m in s.relay
    requires forall j :: j in s1.jobs && IsChosen(s1.jobs[j]) ==>
      j in s.jobs && IsChosen(s.jobs[j]) && s1.jobs[j].(stage := s.jobs[j].stage) == s.jobs[j]
    requires forall k :: 0 <= k < |s1.log| && s1.log[k].WorkStarted? ==> k < |s.log| && s.log[k] == s1.log[k]
    ensures CustomerInv(w, s1)
  {
    forall m | m in s1.relay && m.Selection? && m.author in w.customers
      ensures Settles(s1.sessions, m.author, m.requestEventId, m.provider, m.execution.amount, m.execution.maxAmount)
    {
      SettlesStands(s.sessions, s1.sessions, m.author, m.requestEventId, m.provider,
        m.execution.amount, m.execution.maxAmount);
    }
    forall j | j in s1.jobs && IsChosen(s1.jobs[j]) && s1.jobs[j].request.customer in w.customers
      ensures JobSettled(s1.sessions, s1.jobs[j])
    {
      var job := s.jobs[j];
      assert JobSettled(s.sessions, job);
      SettlesStands(s.sessions, s1.sessions, job.request.customer, job.request.eventId, job.provider,
        job.amount, job.request.maxAmount);
    }
    forall k | 0 <= k < |s1.log| && s1.log[k].WorkStarted? && s1.log[k].request.customer in w.customers
      ensures WorkSettled(s1.sessions, s1.log[k])
    {
      var e := s.log[k];
      assert WorkSettled(s.sessions, e);
      SettlesStands(s.sessions, s1.sessions, e.request.customer, e.request.eventId, e.provider,
        e.terms.amountSats, e.request.maxAmount);
    }
  }

  lemma SelectKeepsInv(w: World, s: State, a: Action)
    requires CustomerInv(w, s) && a.CustomerSelects? && Enabled(w, s, a)
    ensures CustomerInv(w, OnSelect(s, a))
  {
    var x := s.sessions[a.customer];
    var choice := ChoiceFrom(x, a.boundAmount);
    var closed := s.(sessions := s.sessions[a.customer := Closed(x.request, x.wanted, x.window, choice)]);
    QuietKeepsInv(w, s, closed);
    if choice.Some? {
      PublishedSettles(x, choice.value, a.boundAmount, closed.sessions);
    }
  }

  lemma PublishedSettles(x: Session, choice: Choice, boundAmount: int, sessions: map<string, Session>)
    requires x.Collecting? && ChoiceFrom(x, boundAmount) == Some(choice)
    requires x.request.customer in sessions
    requires sessions[x.request.customer] == Closed(x.request, x.wanted, x.window, Some(choice))
    ensures Settles(sessions, x.request.customer, x.request.eventId, choice.offer.provider,
        choice.offer.amountSats, x.request.maxAmount)
  {
    var closed := sessions[x.request.customer];
    assert ChoiceFrom(closed, boundAmount) == ChoiceFrom(x, boundAmount);
  }

  lemma ReceiveKeepsInv(w: World, s: State, j: nat, m: Message)
    requires CustomerInv(w, s) && Enabled(w, s, ReceiveSelection(j, m))
    ensures CustomerInv(w, JobStep(w, s, ReceiveSelection(j, m)))
  {
    var s1, job := JobStep(w, s, ReceiveSelection(j, m)), s.jobs[j];
    if SelectionMatches(w, job, m) {
      if job.request.customer in w.customers {
        assert Settles(s.sessions, m.author, m.requestEventId, m.provider, m.execution.amount, m.execution.maxAmount);
        assert JobSettled(s1.sessions, s1.jobs[j]);
      }
      assert s1 == s.(jobs := s.jobs[j := job.(stage := Chosen(m.token, m.execution))]);
    } else {
      QuietKeepsInv(w, s, s1);
    }
  }

  lemma WorkKeepsInv(w: World, s: State, j: nat)
    requires Inv(w, s) && CustomerInv(w, s) && Enabled(w, s, CheckUnspent(j))
    ensures CustomerInv(w, JobStep(w, s, CheckUnspent(j)))
  {
    var s1, job := JobStep(w, s, CheckUnspent(j)), s.jobs[j];
    if AllUnspent(s, job.stage.token) {
      StartedKeepsInv(w, s, j);
      QuietKeepsInv(w, s.(log := s.log + [WorkEvent(s, j)]), s1);
    } else {
      QuietKeepsInv(w, s, s1);
    }
  }

  lemma StartedKeepsInv(w: World, s: State, j: nat)
    requires Inv(w, s) && CustomerInv(w, s) && j in s.jobs && s.jobs[j].stage.TermsChecked?
    ensures CustomerInv(w, s.(log := s.log + [WorkEvent(s, j)]))
  {
    var job, e := s.jobs[j], WorkEvent(s, j);
    assert JobOk(w, s.oracle.log, s.log, s.now, j, job);
    if job.request.customer in w.customers {
      assert JobSettled(s.sessions, job);
      assert WorkSettled(s.sessions, e);
    }
  }

  lemma JobStepKeepsCustomers(w: World, s: State, a: Action)
    requires Inv(w, s) && CustomerInv(w, s) && Enabled(w, s, a)
    requires a.ReceiveSelection? || a.ReceiveHash? || a.CheckTerms? || a.CheckUnspent? || a.PublishResult?
    ensures CustomerInv(w, JobStep(w, s, a))
  {
    if a.ReceiveSelection? {
      ReceiveKeepsInv(w, s, a.job, a.message);
    } else if a.CheckUnspent? {
      WorkKeepsInv(w, s, a.job);
    } else {
      PlainJobStepKeepsCustomers(w, s, a);
    }
  }

  lemma PlainJobStepKeepsCustomers(w: World, s: State, a: Action)
    requires CustomerInv(w, s) && Enabled(w, s, a) && (a.ReceiveHash? || a.CheckTerms? || a.PublishResult?)
    ensures CustomerInv(w, JobStep(w, s, a))
  {
    QuietKeepsInv(w, s, JobStep(w, s, a));
  }

  lemma WindowKeepsCustomers(w: World, s: State, a: Action)
    requires CustomerInv(w, s) && Enabled(w, s, a) && (a.CustomerRequests? || a.CustomerHears?)
    ensures CustomerInv(w, Step(w, s, a))
  {
    QuietKeepsInv(w, s, Step(w, s, a));
  }

  lemma OfferKeepsCustomers(w: World, s: State, a: Action)
    requires CustomerInv(w, s) && Enabled(w, s, a) && a.Offer?
    ensures CustomerInv(w, Step(w, s, a))
  {
    QuietKeepsInv(w, s, Step(w, s, a));
  }

  lemma RedeemKeepsCustomers(w: World, s: State, a: Action)
    requires CustomerInv(w, s) && Enabled(w, s, a) && a.Redeem?
    ensures CustomerInv(w, Step(w, s, a))
  {
    QuietKeepsInv(w, s, OnRedeem(w, s, a));
  }

  lemma StepKeepsCustomers(w: World, s: State, a: Action)
    requires Inv(w, s) && CustomerInv(w, s)
    ensures CustomerInv(w, Step(w, s, a))
  {
    if Enabled(w, s, a) {
      if a.CustomerSelects? {
        SelectKeepsInv(w, s, a);
      } else if a.ReceiveSelection? || a.ReceiveHash? || a.CheckTerms? || a.CheckUnspent? || a.PublishResult? {
        JobStepKeepsCustomers(w, s, a);
      } else if a.CustomerRequests? || a.CustomerHears? {
        WindowKeepsCustomers(w, s, a);
      } else if a.Offer? {
        OfferKeepsCustomers(w, s, a);
      } else if a.Redeem? {
        RedeemKeepsCustomers(w, s, a);
      } else {
        OthersKeepCustomers(w, s, a);
      }
    }
  }

  /** The Oracle, the mint, the clock and everyone else. */
  lemma OthersKeepCustomers(w: World, s: State, a: Action)
    requires CustomerInv(w, s) && Enabled(w, s, a)
    requires a.OracleActs? || a.OracleAnswers? || a.TimePasses? || a.OthersPublish? || a.MintSigns? || a.OthersSwap?
    ensures CustomerInv(w, Step(w, s, a))
  {
    var s1 := Step(w, s, a);
    assert s1.sessions == s.sessions && s1.jobs == s.jobs;
    assert s1.log == s.log || s1.log[..|s.log|] == s.log;
    QuietKeepsInv(w, s, s1);
  }

  lemma {:induction false} EveryRunKeepsCustomers(
    w: World, retries: nat, frost: O.FrostSetup, now: int, actions: seq<Action>)
    ensures CustomerInv(w, Exec(w, Init(retries, frost, now), actions))
  {
    if actions != [] {
      var front := actions[..|actions| - 1];
      EveryRunKeepsCustomers(w, retries, frost, now, front);
      EveryRunKeepsInv(w, retries, frost, now, front);
      StepKeepsCustomers(w, Exec(w, Init(retries, frost, now), front), actions[|actions| - 1]);
    }
  }

  // ---- What a Customer hears ----

  /** Every heard offer of an honest Provider is one that Provider published for the request. */
  ghost predicate WindowOk(w: World, relay: set<Message>, x: Session) {
    forall i :: 0 <= i < |x.window| ==> IsHeard(w, relay, x.request, x.window[i])
  }

  ghost predicate WindowsOk(w: World, s: State) {
    forall c :: c in s.sessions ==> WindowOk(w, s.relay, s.sessions[c])
  }

  lemma HeardStands(w: World, relay: set<Message>, relay': set<Message>, r: Request, f: Offers.Feedback)
    requires IsHeard(w, relay, r, f) && relay <= relay'
    ensures IsHeard(w, relay', r, f)
  {
    if f.Readable? && f.provider in w.providers {
      var amount: int :|
        OfferNotice(f.provider, r.eventId, amount) in relay && f.amount == Offers.Finite(amount as real);
      assert OfferNotice(f.provider, r.eventId, amount) in relay';
    }
  }

  lemma WindowStands(w: World, relay: set<Message>, relay': set<Message>, x: Session, x': Session)
    requires WindowOk(w, relay, x) && relay <= relay' && x'.request == x.request && x'.window == x.window
    ensures WindowOk(w, relay', x')
  {
    forall i | 0 <= i < |x'.window|
      ensures IsHeard(w, relay', x'.request, x'.window[i])
    {
      HeardStands(w, relay, relay', x.request, x.window[i]);
    }
  }

  lemma RelayGrows(w: World, s: State, a: Action)
    ensures s.relay <= Step(w, s, a).relay
  {
  }

  /** Only hearing an offer changes what a session has heard. */
  lemma OthersHearNothing(w: World, s: State, a: Action, c: string)
    requires c in Step(w, s, a).sessions && !(Enabled(w, s, a) && a.CustomerHears? && a.customer == c)
    ensures var x := Step(w, s, a).sessions[c];
      x.window == [] || (c in s.sessions && x.request == s.sessions[c].request && x.window == s.sessions[c].window)
  {
    if !a.CustomerRequests? && !a.CustomerHears? && !a.CustomerSelects? {
      SessionsStay(w, s, a);
    }
  }

  lemma SessionsStay(w: World, s: State, a: Action)
    requires !a.CustomerRequests? && !a.CustomerHears? && !a.CustomerSelects?
    ensures Step(w, s, a).sessions == s.sessions
  {
  }

  lemma HearingKeepsWindow(w: World, s: State, a: Action)
    requires WindowsOk(w, s) && Enabled(w, s, a) && a.CustomerHears?
    ensures WindowOk(w, s.relay, Step(w, s, a).sessions[a.customer])
  {
    var x := s.sessions[a.customer];
    var heard := x.window + [a.feedback];
    assert WindowOk(w, s.relay, x);
    forall i | 0 <= i < |heard|
      ensures IsHeard(w, s.relay, x.request, heard[i])
    {
      if i < |x.window| {
        assert heard[i] == x.window[i];
      }
    }
  }

  lemma StepKeepsWindows(w: World, s: State, a: Action)
    requires WindowsOk(w, s)
    ensures WindowsOk(w, Step(w, s, a))
  {
    var s1 := Step(w, s, a);
    RelayGrows(w, s, a);
    forall c | c in s1.sessions
      ensures WindowOk(w, s1.relay, s1.sessions[c])
    {
      if Enabled(w, s, a) && a.CustomerHears? && a.customer == c {
        HearingKeepsWindow(w, s, a);
      } else {
        OthersHearNothing(w, s, a, c);
        if s1.sessions[c].window != [] {
          WindowStands(w, s.relay, s1.relay, s.sessions[c], s1.sessions[c]);
        }
      }
    }
  }

  lemma {:induction false} EveryRunKeepsWindows(
    w: World, retries: nat, frost: O.FrostSetup, now: int, actions: seq<Action>)
    ensures WindowsOk(w, Exec(w, Init(retries, frost, now), actions))
  {
    if actions != [] {
      var front := actions[..|actions| - 1];
      EveryRunKeepsWindows(w, retries, frost, now, front);
      StepKeepsWindows(w, Exec(w, Init(retries, frost, now), front), actions[|actions| - 1]);
    }
  }

  /** A qualifying heard offer of an honest Provider is on the relay at its whole amount. */
  lemma HeardIsPublished(w: World, relay: set<Message>, x: Session, i: nat)
    requires WindowOk(w, relay, x)
    ensures Compared(w, relay, x, i)
  {
    if i < |x.window| && x.window[i].Readable? && x.window[i].provider in w.providers {
      var f := x.window[i];
      assert IsHeard(w, relay, x.request, f);
      var amount: int :|
        OfferNotice(f.provider, x.request.eventId, amount) in relay && f.amount == Offers.Finite(amount as real);
      assert (amount as real).Floor == amount;
    }
  }

  // ---- Main results ----

  /**
   `paid` is the amount of a qualifying offer of the Customer's window by this Provider, which the Provider published;
   no qualifying offer asks less and every earlier one asks more; and the qualifying offers of honest Providers it was
   compared with are ones those Providers published.
   */
  ghost predicate IsLeastOffer(w: World, relay: set<Message>, x: Session, provider: string, paid: int) {
    && OfferNotice(provider, x.request.eventId, paid) in relay
    && (exists i: nat :: Offers.IsFirstLeast(x.window, i, x.request.maxAmount, x.wanted)
          && Offers.AsOffer(x.window[i]).provider == provider && Offers.AsOffer(x.window[i]).amountSats == paid)
    && forall i: nat :: Compared(w, relay, x, i)
  }

  /** The qualifying offer at i, if an honest Provider's, is on the relay. */
  predicate Compared(w: World, relay: set<Message>, x: Session, i: nat) {
    i < |x.window| && x.window[i].Readable? && x.window[i].provider in w.providers ==>
      Offers.Qualifies(x.window[i], x.request.maxAmount, x.wanted) ==>
      OfferNotice(x.window[i].provider, x.request.eventId, Offers.AsOffer(x.window[i]).amountSats) in relay
  }

  /**
   The terms a Provider works under for such a Customer are the least offer of that Customer's window, the earliest of
   that amount, and the one offer this Provider made for the job.
   */
  lemma WorkIsForTheLeastOffer(w: World, retries: nat, frost: O.FrostSetup, now: int, actions: seq<Action>, j: nat)
    requires var s := Exec(w, Init(retries, frost, now), actions);
      j < |s.log| && s.log[j].WorkStarted? && s.log[j].request.customer in w.customers
    ensures var s := Exec(w, Init(retries, frost, now), actions);
      var e := s.log[j];
      && OfferIn(s.log[..j], e.job, e.provider, e.request, e.terms.amountSats)
      && e.request.customer in s.sessions
      && var x := s.sessions[e.request.customer];
         && x.Closed? && x.choice.Some?
         && x.request.eventId == e.request.eventId && x.request.maxAmount == e.request.maxAmount
         && e.terms.amountSats == x.choice.value.boundAmount && 0 < e.terms.amountSats <= x.request.maxAmount
         && IsLeastOffer(w, s.relay, x, e.provider, e.terms.amountSats)
  {
    EveryRunKeepsCustomers(w, retries, frost, now, actions);
    EveryRunKeepsWindows(w, retries, frost, now, actions);
    ProvidersWorkOnlyWhenCovered(w, retries, frost, now, actions, j);
    var s := Exec(w, Init(retries, frost, now), actions);
    assert WorkSettled(s.sessions, s.log[j]);
    SettledIsLeast(w, s, s.log[j]);
  }

  lemma SettledIsLeast(w: World, s: State, e: Event)
    requires e.WorkStarted? && WorkSettled(s.sessions, e) && WindowsOk(w, s)
    requires OfferNotice(e.provider, e.request.eventId, e.terms.amountSats) in s.relay
    ensures var x := s.sessions[e.request.customer];
      && e.terms.amountSats == x.choice.value.boundAmount && 0 < e.terms.amountSats <= x.request.maxAmount
      && IsLeastOffer(w, s.relay, x, e.provider, e.terms.amountSats)
  {
    var x := s.sessions[e.request.customer];
    Offers.PublishedSelectionIsLeastOffer(x.window, x.request.maxAmount, x.wanted, x.choice.value.boundAmount);
    assert WindowOk(w, s.relay, x);
    forall i: nat
      ensures Compared(w, s.relay, x, i)
    {
      HeardIsPublished(w, s.relay, x, i);
    }
  }

  /**
   Every run: a Provider's redeem for a request of such a Customer pays the least qualifying offer of the Customer's
   window, the earliest of that amount, published by that Provider as its one offer for the job, within the budget.
   */
  lemma ProviderIsPaidTheLeastOffer(
    w: World, retries: nat, frost: O.FrostSetup, now: int, actions: seq<Action>, j: nat, k: nat)
    requires var log := Exec(w, Init(retries, frost, now), actions).log;
      && j < |log| && k < |log| && log[k].Swapped? && log[k].redeemer.Some? && PaysFor(log[j], log[k])
      && log[j].request.customer in w.customers
    ensures var s := Exec(w, Init(retries, frost, now), actions);
      var e := s.log[j];
      && OfferIn(s.log[..j], e.job, e.provider, e.request, s.log[k].received)
      && e.request.customer in s.sessions
      && var x := s.sessions[e.request.customer];
         && 0 < s.log[k].received <= x.request.maxAmount && x.request.eventId == e.request.eventId
         && IsLeastOffer(w, s.relay, x, e.provider, s.log[k].received)
  {
    WorkIsForTheLeastOffer(w, retries, frost, now, actions, j);
  }
}
