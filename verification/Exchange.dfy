/**
 The whole exchange: Providers running their jobs, the Oracle daemon, a mint and everyone else, over a relay
 that keeps every published message and hands any of them to anyone, any number of times, in any order, or never.

 Hashing is symbolic up to `sha`: nobody presents a preimage of an Oracle commitment before the Oracle sent it.
 Signing is symbolic: only an honest Provider's own redeem step signs with its key.
 */
module Exchange {
  import opened Wrappers
  import opened SpendingConditions
  import opened PaymentLock
  import O = OracleDaemon
  import OracleRetention
  import Offers
  import Text

  /**
   What stays fixed in a run. `fee` is the mint's swap fee for a list of proofs; `customers` are the one-request
   keys of Customers with the default offer selector.
   */
  datatype World = World(
    sha: string -> string, fee: seq<Proof> -> int, providers: set<string>, customers: set<string>, oracleKey: string,
    mintUrl: string)

  datatype Request = Request(
    eventId: string, queryId: string, customer: string, oracle: string, schema: string, maxAmount: nat)

  datatype Execution = Execution(schema: string, maxAmount: nat, amount: int, mintUrl: string, locktime: nat)

  datatype Token = Token(mintUrl: string, proofs: seq<Proof>)

  datatype Message =
    | RequestNotice(author: string, request: Request)
    | OfferNotice(provider: string, requestEventId: string, amount: int)
    | Selection(author: string, requestEventId: string, provider: string, token: Token, execution: Execution)
    | HashResponse(author: string, queryId: string, hash: string)
    | ResultNotice(provider: string, requestEventId: string)

  /** The key that signed a message; a request names its Customer's key without being signed with it. */
  function Author(m: Message): string {
    match m
    case RequestNotice(a, _) => a
    case OfferNotice(p, _, _) => p
    case Selection(a, _, _, _, _) => a
    case HashResponse(a, _, _) => a
    case ResultNotice(p, _) => p
  }

  datatype Stage =
    | Offered
    | Chosen(token: Token, execution: Execution)
    | HashKnown(token: Token, terms: LockTerms)
    | TermsChecked(token: Token, terms: LockTerms, checkedAt: int)
    | Working(token: Token, terms: LockTerms)
    | Delivered(token: Token, terms: LockTerms)
    | Finished

  datatype Job = Job(provider: string, request: Request, amount: int, stage: Stage)

  /** What a Customer settled on: an offer of its window and the amount its lock nets. */
  datatype Choice = Choice(offer: Offers.Offer, boundAmount: int)

  /** A Customer's request: the feedback heard while the offer window was open, then the choice, if one was made. */
  datatype Session =
    | Collecting(request: Request, wanted: Option<string>, window: seq<Offers.Feedback>)
    | Closed(request: Request, wanted: Option<string>, window: seq<Offers.Feedback>, choice: Option<Choice>)

  datatype Input = Input(proof: Proof, conditions: Conditions, unlock: Witness)

  /**
   What the run records. `seen` is how much of the Oracle's history had happened; a Provider's own redeem
   carries the job and the amount it received.
   */
  datatype Event =
    | OfferPublished(job: nat, provider: string, request: Request, amount: int, seen: nat)
    | WorkStarted(job: nat, provider: string, request: Request, terms: LockTerms,
      token: Token, checkedAt: int, seen: nat)
    | Swapped(inputs: seq<Input>, at: int, seen: nat, redeemer: Option<nat>, received: int)

  datatype State = State(
    oracle: O.State, issued: set<Proof>, spent: set<string>, relay: set<Message>, jobs: map<nat, Job>,
    sessions: map<string, Session>, now: int, log: seq<Event>)

  datatype Action =
    | OracleActs(action: O.Action)
    | OracleAnswers(queryId: string, hash: string)
    | TimePasses(seconds: nat)
    | OthersPublish(message: Message)
    | MintSigns(proof: Proof)
    | OthersSwap(inputs: seq<Input>)
    | CustomerRequests(request: Request, wanted: Option<string>)
    | CustomerHears(customer: string, feedback: Offers.Feedback)
    | CustomerSelects(customer: string, token: Token, boundAmount: int, mintUrl: string, locktime: nat)
    | Offer(job: nat, provider: string, request: Request, amount: int)
    | ReceiveSelection(job: nat, message: Message)
    | ReceiveHash(job: nat, hash: string)
    | CheckTerms(job: nat)
    | CheckUnspent(job: nat)
    | PublishResult(job: nat)
    | Redeem(job: nat, preimage: string, readings: seq<Conditions>)

  function Init(retries: nat, frost: O.FrostSetup, now: int): State {
    State(O.Init(retries, frost), {}, {}, {}, map[], map[], now, [])
  }

  // ---- Mint ----

  predicate DistinctInputs(inputs: seq<Input>) {
    forall i, j :: 0 <= i < j < |inputs| ==> inputs[i].proof.secret.raw != inputs[j].proof.secret.raw
  }

  ghost predicate ValidInput(w: World, input: Input, now: int) {
    && (input.proof.secret.WellKnown? ==> Reads(input.proof.secret.tags, input.conditions))
    && Spendable(w.sha, input.proof.secret, input.conditions, input.unlock, now)
  }

  function Secrets(inputs: seq<Input>): seq<Secret> {
    seq(|inputs|, i requires 0 <= i < |inputs| => inputs[i].proof.secret)
  }

  /** The mint takes a swap when every input is its own, unspent and unlocked by its witness, under the SIG_ALL rule. */
  ghost predicate MintAccepts(w: World, s: State, inputs: seq<Input>) {
    && inputs != [] && DistinctInputs(inputs) && OneCondition(Secrets(inputs))
    && forall i :: 0 <= i < |inputs| ==>
         && inputs[i].proof in s.issued
         && inputs[i].proof.secret.raw !in s.spent
         && ValidInput(w, inputs[i], s.now)
  }

  function Raws(inputs: seq<Input>): set<string> {
    set i | 0 <= i < |inputs| :: inputs[i].proof.secret.raw
  }

  /** Preimage resistance: a preimage of an Oracle commitment is around only once the Oracle sent it. */
  ghost predicate Available(w: World, past: seq<O.Event>, unlock: Witness) {
    unlock.preimage.Some? ==>
      forall e :: e in past && e.Created? && e.hash == w.sha(unlock.preimage.value) ==> SentHash(past, e.hash)
  }

  ghost predicate SentHash(past: seq<O.Event>, hash: string) {
    exists r: O.Release :: r.hash == hash && O.Sent(r) in past
  }

  ghost predicate NotProviders(w: World, inputs: seq<Input>) {
    forall i :: 0 <= i < |inputs| ==> inputs[i].unlock.signers !! w.providers
  }

  ghost predicate AllAvailable(w: World, past: seq<O.Event>, inputs: seq<Input>) {
    forall i :: 0 <= i < |inputs| ==> Available(w, past, inputs[i].unlock)
  }

  // ---- A Provider's job ----

  /** The checks on a selection before any payment check. */
  predicate SelectionMatches(w: World, job: Job, m: Message) {
    && m.Selection?
    && m.author == job.request.customer && m.requestEventId == job.request.eventId && m.provider == job.provider
    && m.execution.schema == job.request.schema
    && m.execution.maxAmount == job.request.maxAmount
    && m.execution.amount == job.amount
    && m.execution.mintUrl == w.mintUrl
  }

  function TermsFor(job: Job, e: Execution, hash: string): LockTerms {
    LockTerms(job.amount, hash, job.provider, job.request.customer, e.locktime)
  }

  /** The proofs of a token with the preimage and the Provider's signature on each. */
  function SignedInputs(token: Token, readings: seq<Conditions>, preimage: string, provider: string): seq<Input>
    requires |readings| == |token.proofs|
  {
    seq(|token.proofs|, i requires 0 <= i < |token.proofs| =>
      Input(token.proofs[i], readings[i], Witness(Some(preimage), {provider})))
  }

  /** The local hashlock check before contacting the mint. */
  predicate PreimageFits(w: World, token: Token, preimage: string) {
    && token.proofs != []
    && forall i :: 0 <= i < |token.proofs| ==>
         var s := token.proofs[i].secret;
         s.WellKnown? && s.kind == "HTLC" && s.data == Some(w.sha(preimage))
  }

  // ---- A Customer's request ----

  /** An offer is signed by the Provider it names, so an honest Provider's is one it published. */
  ghost predicate IsHeard(w: World, relay: set<Message>, r: Request, f: Offers.Feedback) {
    f.Readable? && f.provider in w.providers ==>
      exists amount: int ::
        OfferNotice(f.provider, r.eventId, amount) in relay && f.amount == Offers.Finite(amount as real)
  }

  /** The choice at the end of the window, after the budget check and the check of the bound amount. */
  function ChoiceFrom(x: Session, boundAmount: int): Option<Choice> {
    var max := x.request.maxAmount;
    var o := Offers.ConfirmSelection(
      Offers.SelectCheapestOffer(Offers.Qualifying(x.window, max, x.wanted)), max, boundAmount);
    if o.Ok? then Some(Choice(o.value, boundAmount)) else None
  }

  /** The selection published for a choice. */
  function SelectionOf(x: Session, c: Choice, token: Token, mintUrl: string, locktime: nat): Message {
    Selection(x.request.customer, x.request.eventId, c.offer.provider, token,
              Execution(x.request.schema, x.request.maxAmount, c.offer.amountSats, mintUrl, locktime))
  }

  function OnSelect(s: State, a: Action): State
    requires a.CustomerSelects? && a.customer in s.sessions && s.sessions[a.customer].Collecting?
  {
    var x := s.sessions[a.customer];
    var choice := ChoiceFrom(x, a.boundAmount);
    var s1 := s.(sessions := s.sessions[a.customer := Closed(x.request, x.wanted, x.window, choice)]);
    if choice.Some?
    then s1.(relay := s.relay + {SelectionOf(x, choice.value, a.token, a.mintUrl, a.locktime)})
    else s1
  }

  function SetStage(s: State, id: nat, stage: Stage): State
    requires id in s.jobs
  {
    s.(jobs := s.jobs[id := s.jobs[id].(stage := stage)])
  }

  ghost function OnRedeem(w: World, s: State, a: Action): State
    requires a.Redeem? && a.job in s.jobs && s.jobs[a.job].stage.Delivered?
    requires |a.readings| == |s.jobs[a.job].stage.token.proofs|
  {
    var job := s.jobs[a.job];
    var token := job.stage.token;
    var inputs := SignedInputs(token, a.readings, a.preimage, job.provider);
    var amount := SumAmounts(token.proofs) - w.fee(token.proofs);
    var s1 := SetStage(s, a.job, Finished);
    if PreimageFits(w, token, a.preimage) && amount > 0 && MintAccepts(w, s, inputs)
    then s1.(spent := s.spent + Raws(inputs),
             log := s.log + [Swapped(inputs, s.now, |s.oracle.log|, Some(a.job), amount)])
    else s1
  }

  ghost predicate Enabled(w: World, s: State, a: Action) {
    match a
    case OracleActs(x) => true
    case OracleAnswers(q, h) => O.Answered(q, h) in s.oracle.log
    case TimePasses(_) => true
    case OthersPublish(m) => Author(m) != w.oracleKey && Author(m) !in w.providers && Author(m) !in w.customers
    case MintSigns(p) => forall q :: q in s.issued ==> q.secret.raw != p.secret.raw
    case OthersSwap(inputs) =>
      MintAccepts(w, s, inputs) && NotProviders(w, inputs) && AllAvailable(w, s.oracle.log, inputs)
    case CustomerRequests(r, _) => r.customer in w.customers && r.customer !in s.sessions && 0 < r.maxAmount
    case CustomerHears(c, f) =>
      c in s.sessions && s.sessions[c].Collecting? && IsHeard(w, s.relay, s.sessions[c].request, f)
    case CustomerSelects(c, _, _, _, _) => c in s.sessions && s.sessions[c].Collecting?
    case Offer(j, p, r, amount) =>
      j !in s.jobs && p in w.providers && (exists a :: RequestNotice(a, r) in s.relay) && 0 < amount <= r.maxAmount
    case ReceiveSelection(j, m) => j in s.jobs && s.jobs[j].stage.Offered? && m in s.relay
    case ReceiveHash(j, h) =>
      && j in s.jobs && s.jobs[j].stage.Chosen?
      && HashResponse(s.jobs[j].request.oracle, s.jobs[j].request.queryId, h) in s.relay
    case CheckTerms(j) => j in s.jobs && s.jobs[j].stage.HashKnown?
    case CheckUnspent(j) => j in s.jobs && s.jobs[j].stage.TermsChecked?
    case PublishResult(j) => j in s.jobs && s.jobs[j].stage.Working?
    case Redeem(j, x, readings) =>
      && j in s.jobs && s.jobs[j].stage.Delivered? && |readings| == |s.jobs[j].stage.token.proofs|
      && Available(w, s.oracle.log, Witness(Some(x), {}))
  }

  function WorkEvent(s: State, id: nat): Event
    requires id in s.jobs && s.jobs[id].stage.TermsChecked?
  {
    var job := s.jobs[id];
    WorkStarted(id, job.provider, job.request, job.stage.terms, job.stage.token, job.stage.checkedAt, |s.oracle.log|)
  }

  /** The mint's signature on every proof checks out, and its state check answers unspent for all of them. */
  predicate AllUnspent(s: State, token: Token) {
    forall p :: p in token.proofs ==> p in s.issued && p.secret.raw !in s.spent
  }

  ghost function JobStep(w: World, s: State, a: Action): State
    requires Enabled(w, s, a)
    requires a.ReceiveSelection? || a.ReceiveHash? || a.CheckTerms? || a.CheckUnspent? || a.PublishResult?
  {
    var job := s.jobs[a.job];
    match a
    case ReceiveSelection(j, m) =>
      SetStage(s, j, if SelectionMatches(w, job, m) then Chosen(m.token, m.execution) else Finished)
    case ReceiveHash(j, h) => SetStage(s, j, HashKnown(job.stage.token, TermsFor(job, job.stage.execution, h)))
    case CheckTerms(j) =>
      var token, terms := job.stage.token, job.stage.terms;
      SetStage(s, j,
        if token.mintUrl == w.mintUrl && Acceptable(token.proofs, terms, w.fee(token.proofs), s.now)
        then TermsChecked(token, terms, s.now) else Finished)
    case CheckUnspent(j) =>
      if AllUnspent(s, job.stage.token)
      then SetStage(s.(log := s.log + [WorkEvent(s, j)]), j, Working(job.stage.token, job.stage.terms))
      else SetStage(s, j, Finished)
    case PublishResult(j) =>
      SetStage(s, j, Delivered(job.stage.token, job.stage.terms))
        .(relay := s.relay + {ResultNotice(job.provider, job.request.eventId)})
  }

  ghost function Step(w: World, s: State, a: Action): State {
    if !Enabled(w, s, a) then s
    else
      match a
      case OracleActs(x) => s.(oracle := O.Step(s.oracle, x, w.sha))
      case OracleAnswers(q, h) => s.(relay := s.relay + {HashResponse(w.oracleKey, q, h)})
      case TimePasses(d) => s.(now := s.now + d)
      case OthersPublish(m) => s.(relay := s.relay + {m})
      case MintSigns(p) => s.(issued := s.issued + {p})
      case OthersSwap(inputs) =>
        s.(spent := s.spent + Raws(inputs), log := s.log + [Swapped(inputs, s.now, |s.oracle.log|, None, 0)])
      case CustomerRequests(r, wanted) =>
        s.(sessions := s.sessions[r.customer := Collecting(r, wanted, [])],
          relay := s.relay + {RequestNotice(r.customer, r)})
      case CustomerHears(c, f) =>
        s.(sessions := s.sessions[c := s.sessions[c].(window := s.sessions[c].window + [f])])
      case CustomerSelects(_, _, _, _, _) => OnSelect(s, a)
      case Offer(j, p, r, amount) =>
        s.(jobs := s.jobs[j := Job(p, r, amount, Offered)], relay := s.relay + {OfferNotice(p, r.eventId, amount)},
           log := s.log + [OfferPublished(j, p, r, amount, |s.oracle.log|)])
      case Redeem(_, _, _) => OnRedeem(w, s, a)
      case _ => JobStep(w, s, a)
  }

  ghost function Exec(w: World, s: State, actions: seq<Action>): State {
    if actions == [] then s else Step(w, Exec(w, s, actions[..|actions| - 1]), actions[|actions| - 1])
  }

  // ---- What every run keeps ----

  function SpentIn(log: seq<Event>): set<string> {
    if log == [] then {}
    else SpentIn(log[..|log| - 1]) + (if log[|log| - 1].Swapped? then Raws(log[|log| - 1].inputs) else {})
  }

  ghost predicate TermsOk(w: World, job: Job, terms: LockTerms, oracleLog: seq<O.Event>) {
    && terms == LockTerms(job.amount, terms.hashHex, job.provider, job.request.customer, terms.locktimeSeconds)
    && (job.request.oracle == w.oracleKey ==> O.Answered(job.request.queryId, terms.hashHex) in oracleLog)
  }

  ghost predicate Started(log: seq<Event>, id: nat, job: Job, token: Token, terms: LockTerms) {
    exists k :: 0 <= k < |log| && StartedAt(log[k], id, job, token, terms)
  }

  predicate StartedAt(e: Event, id: nat, job: Job, token: Token, terms: LockTerms) {
    && e.WorkStarted? && e.job == id && e.provider == job.provider && e.request == job.request
    && e.terms == terms && e.token == token
  }

  predicate OfferAt(log: seq<Event>, k: nat, id: nat, provider: string, request: Request, amount: int) {
    && k < |log| && log[k].OfferPublished? && log[k].job == id
    && log[k].provider == provider && log[k].request == request && log[k].amount == amount
  }

  /** The job's own offer: by this Provider, for this request, at this amount. */
  ghost predicate OfferIn(log: seq<Event>, id: nat, provider: string, request: Request, amount: int) {
    exists k: nat :: OfferAt(log, k, id, provider, request, amount)
  }

  ghost predicate JobOk(w: World, olog: seq<O.Event>, log: seq<Event>, now: int, id: nat, job: Job) {
    && job.provider in w.providers
    && 0 < job.amount <= job.request.maxAmount
    && OfferIn(log, id, job.provider, job.request, job.amount)
    && match job.stage
       case HashKnown(_, terms) => TermsOk(w, job, terms, olog)
       case TermsChecked(token, terms, at) =>
         TermsOk(w, job, terms, olog) && at <= now && Acceptable(token.proofs, terms, w.fee(token.proofs), at)
       case Working(token, terms) => terms.amountSats == job.amount && Started(log, id, job, token, terms)
       case Delivered(token, terms) => terms.amountSats == job.amount && Started(log, id, job, token, terms)
       case _ => true
  }

  /**
   A Provider starts work only on a genuine, unspent lock on the Oracle's hash, its own key and the price it offered.
   */
  ghost predicate WorkIsCovered(w: World, issued: set<Proof>, olog: seq<O.Event>, past: seq<Event>, e: Event)
    requires e.WorkStarted?
  {
    && e.provider in w.providers
    && e.terms.providerPubkey == e.provider && e.terms.customerPubkey == e.request.customer
    && 0 < e.terms.amountSats <= e.request.maxAmount
    && OfferIn(past, e.job, e.provider, e.request, e.terms.amountSats)
    && Acceptable(e.token.proofs, e.terms, w.fee(e.token.proofs), e.checkedAt)
    && (forall p :: p in e.token.proofs ==> p in issued && p.secret.raw !in SpentIn(past))
    && e.seen <= |olog|
    && (e.request.oracle == w.oracleKey ==> O.Answered(e.request.queryId, e.terms.hashHex) in olog[..e.seen])
  }

  /** A Provider's own swap redeems the whole token of the job it worked on, for the price it offered. */
  ghost predicate OwnSwap(past: seq<Event>, e: Event)
    requires e.Swapped? && e.redeemer.Some?
  {
    exists j :: 0 <= j < |past| && PaysFor(past[j], e)
  }

  predicate PaysFor(start: Event, e: Event)
    requires e.Swapped? && e.redeemer.Some?
  {
    && start.WorkStarted? && start.job == e.redeemer.value
    && |e.inputs| == |start.token.proofs|
    && (forall i :: 0 <= i < |e.inputs| ==>
          e.inputs[i].proof == start.token.proofs[i] && e.inputs[i].unlock.signers == {start.provider})
    && e.received == start.terms.amountSats
  }

  ghost predicate InputOk(w: World, issued: set<Proof>, past: seq<Event>, input: Input, at: int) {
    && input.proof in issued
    && input.proof.secret.raw !in SpentIn(past)
    && ValidInput(w, input, at)
  }

  ghost predicate SwapIsLawful(w: World, issued: set<Proof>, olog: seq<O.Event>, past: seq<Event>, e: Event)
    requires e.Swapped?
  {
    && e.inputs != [] && DistinctInputs(e.inputs)
    && (forall i :: 0 <= i < |e.inputs| ==> InputOk(w, issued, past, e.inputs[i], e.at))
    && e.seen <= |olog|
    && AllAvailable(w, olog[..e.seen], e.inputs)
    && (if e.redeemer.Some? then OwnSwap(past, e) else NotProviders(w, e.inputs))
  }

  /** A job is offered once, within the request's budget. */
  ghost predicate OfferIsFirst(w: World, olog: seq<O.Event>, past: seq<Event>, e: Event)
    requires e.OfferPublished?
  {
    && e.provider in w.providers && 0 < e.amount <= e.request.maxAmount && e.seen <= |olog|
    && forall j: nat :: OffersAt(past, j) ==> past[j].job != e.job
  }

  predicate OffersAt(log: seq<Event>, k: nat) {
    k < |log| && log[k].OfferPublished?
  }

  ghost predicate EventOk(w: World, issued: set<Proof>, olog: seq<O.Event>, past: seq<Event>, e: Event) {
    && (forall j :: 0 <= j < |past| ==> past[j].seen <= e.seen)
    && match e
       case OfferPublished(_, _, _, _, _) => OfferIsFirst(w, olog, past, e)
       case WorkStarted(_, _, _, _, _, _, _) => WorkIsCovered(w, issued, olog, past, e)
       case Swapped(_, _, _, _, _) => SwapIsLawful(w, issued, olog, past, e)
  }

  ghost predicate EventOkAt(w: World, issued: set<Proof>, olog: seq<O.Event>, log: seq<Event>, k: nat) {
    k < |log| ==> EventOk(w, issued, olog, log[..k], log[k])
  }

  ghost predicate LogOk(w: World, issued: set<Proof>, olog: seq<O.Event>, log: seq<Event>) {
    forall k :: EventOkAt(w, issued, olog, log, k)
  }

  ghost predicate HashesAreDigests(w: World, olog: seq<O.Event>) {
    forall e :: e in olog && e.Created? ==> e.hash == w.sha(e.preimage)
  }

  ghost predicate OneProofPerSecret(issued: set<Proof>) {
    forall p, q :: p in issued && q in issued && p.secret.raw == q.secret.raw ==> p == q
  }

  ghost predicate RelayOk(w: World, olog: seq<O.Event>, relay: set<Message>) {
    forall m :: m in relay && m.HashResponse? && m.author == w.oracleKey ==> O.Answered(m.queryId, m.hash) in olog
  }

  ghost predicate JobsOk(w: World, olog: seq<O.Event>, log: seq<Event>, now: int, jobs: map<nat, Job>) {
    forall j :: j in jobs ==> JobOk(w, olog, log, now, j, jobs[j])
  }

  /** The offer at k belongs to a job, and its notice is on the relay. */
  predicate OfferShown(jobs: map<nat, Job>, relay: set<Message>, log: seq<Event>, k: nat) {
    OffersAt(log, k) ==>
      log[k].job in jobs && OfferNotice(log[k].provider, log[k].request.eventId, log[k].amount) in relay
  }

  predicate NoticeOf(log: seq<Event>, k: nat, m: Message)
    requires m.OfferNotice?
  {
    && OffersAt(log, k) && log[k].provider == m.provider
    && log[k].request.eventId == m.requestEventId && log[k].amount == m.amount
  }

  /** An honest Provider's notice on the relay is that of an offer it made. */
  ghost predicate NoticeBacked(w: World, relay: set<Message>, log: seq<Event>, m: Message) {
    m in relay && m.OfferNotice? && m.provider in w.providers ==> exists k: nat :: NoticeOf(log, k, m)
  }

  ghost predicate OffersOk(w: World, jobs: map<nat, Job>, relay: set<Message>, log: seq<Event>) {
    && (forall k: nat :: OfferShown(jobs, relay, log, k))
    && (forall m :: NoticeBacked(w, relay, log, m))
  }

  ghost predicate Inv(w: World, s: State) {
    && O.Inv(s.oracle)
    && HashesAreDigests(w, s.oracle.log)
    && OneProofPerSecret(s.issued)
    && RelayOk(w, s.oracle.log, s.relay)
    && JobsOk(w, s.oracle.log, s.log, s.now, s.jobs)
    && OffersOk(w, s.jobs, s.relay, s.log)
    && s.spent == SpentIn(s.log)
    && LogOk(w, s.issued, s.oracle.log, s.log)
  }

  // ---- Growth of the histories ----

  lemma LogGrows(
    w: World, issued: set<Proof>, issued': set<Proof>, olog: seq<O.Event>, olog': seq<O.Event>, log: seq<Event>)
    requires LogOk(w, issued, olog, log) && issued <= issued' && olog <= olog'
    ensures LogOk(w, issued', olog', log)
  {
    forall k: nat
      ensures EventOkAt(w, issued', olog', log, k)
    {
      assert EventOkAt(w, issued, olog, log, k);
      if k < |log| {
        EventGrows(w, issued, issued', olog, olog', log[..k], log[k]);
      }
    }
  }

  lemma EventGrows(w: World, issued: set<Proof>, issued': set<Proof>, olog: seq<O.Event>, olog': seq<O.Event>,
                   past: seq<Event>, e: Event)
    requires EventOk(w, issued, olog, past, e) && issued <= issued' && olog <= olog'
    ensures EventOk(w, issued', olog', past, e)
  {
    assert olog'[..e.seen] == olog[..e.seen];
    if e.Swapped? {
      forall i | 0 <= i < |e.inputs|
        ensures InputOk(w, issued', past, e.inputs[i], e.at)
      {
        assert InputOk(w, issued, past, e.inputs[i], e.at);
      }
    }
  }

  lemma LogSnoc(w: World, issued: set<Proof>, olog: seq<O.Event>, log: seq<Event>, e: Event)
    requires LogOk(w, issued, olog, log) && EventOk(w, issued, olog, log, e)
    ensures LogOk(w, issued, olog, log + [e])
  {
    forall k: nat
      ensures EventOkAt(w, issued, olog, log + [e], k)
    {
      assert EventOkAt(w, issued, olog, log, k);
      if k < |log| {
        assert (log + [e])[..k] == log[..k];
      } else if k == |log| {
        assert (log + [e])[..k] == log;
      }
    }
  }

  lemma SpentSnoc(log: seq<Event>, e: Event)
    ensures SpentIn(log + [e]) == SpentIn(log) + (if e.Swapped? then Raws(e.inputs) else {})
  {
    assert (log + [e])[..|log|] == log;
  }

  lemma JobsGrow(
    w: World, olog: seq<O.Event>, olog': seq<O.Event>, log: seq<Event>, log': seq<Event>, now: int, now': int,
    jobs: map<nat, Job>)
    requires JobsOk(w, olog, log, now, jobs) && olog <= olog' && log <= log' && now <= now'
    ensures JobsOk(w, olog', log', now', jobs)
  {
    forall j | j in jobs
      ensures JobOk(w, olog', log', now', j, jobs[j])
    {
      var job := jobs[j];
      assert JobOk(w, olog, log, now, j, job);
      assert forall e :: e in olog ==> e in olog';
      OfferGrows(log, log', j, job.provider, job.request, job.amount);
      if job.stage.Working? || job.stage.Delivered? {
        StartedGrows(log, log', j, job, job.stage.token, job.stage.terms);
      }
    }
  }

  lemma OfferGrows(log: seq<Event>, log': seq<Event>, id: nat, provider: string, request: Request, amount: int)
    requires OfferIn(log, id, provider, request, amount) && log <= log'
    ensures OfferIn(log', id, provider, request, amount)
  {
    var k: nat :| OfferAt(log, k, id, provider, request, amount);
    assert OfferAt(log', k, id, provider, request, amount);
  }

  /** Offers and notices stand as jobs, relay and history grow without new ones. */
  lemma OffersGrow(
    w: World, jobs: map<nat, Job>, jobs': map<nat, Job>, relay: set<Message>, relay': set<Message>,
    log: seq<Event>, log': seq<Event>)
    requires OffersOk(w, jobs, relay, log) && jobs.Keys <= jobs'.Keys && relay <= relay' && log <= log'
    requires forall m :: m in relay' && m.OfferNotice? && m.provider in w.providers ==> m in relay
    requires forall k: nat :: OffersAt(log', k) ==> k < |log|
    ensures OffersOk(w, jobs', relay', log')
  {
    forall k: nat
      ensures OfferShown(jobs', relay', log', k)
    {
      assert OfferShown(jobs, relay, log, k);
    }
    forall m
      ensures NoticeBacked(w, relay', log', m)
    {
      assert NoticeBacked(w, relay, log, m);
      if m in relay' && m.OfferNotice? && m.provider in w.providers {
        NoticeStands(log, log', m);
      }
    }
  }

  lemma NoticeStands(log: seq<Event>, log': seq<Event>, m: Message)
    requires log <= log' && m.OfferNotice? && exists k: nat :: NoticeOf(log, k, m)
    ensures exists k: nat :: NoticeOf(log', k, m)
  {
    var k: nat :| NoticeOf(log, k, m);
    assert NoticeOf(log', k, m);
  }

  lemma StartedGrows(log: seq<Event>, log': seq<Event>, id: nat, job: Job, token: Token, terms: LockTerms)
    requires Started(log, id, job, token, terms) && log <= log'
    ensures Started(log', id, job, token, terms)
  {
    var k :| 0 <= k < |log| && StartedAt(log[k], id, job, token, terms);
    assert log'[k] == log[k];
  }

  // ---- Every step keeps the invariant ----

  lemma OracleLogGrows(w: World, s: O.State, a: O.Action)
    requires HashesAreDigests(w, s.log)
    ensures s.log <= O.Step(s, a, w.sha).log
    ensures HashesAreDigests(w, O.Step(s, a, w.sha).log)
  {
    var e := OracleRetention.StepLog(s, a, w.sha);
    DigestsSnoc(w, s.log, e);
  }

  lemma DigestsSnoc(w: World, olog: seq<O.Event>, e: Option<O.Event>)
    requires HashesAreDigests(w, olog) && (e.Some? && e.value.Created? ==> e.value.hash == w.sha(e.value.preimage))
    ensures e.Some? ==> HashesAreDigests(w, olog + [e.value])
  {
  }

  lemma OracleActsKeepsInv(w: World, s: State, x: O.Action)
    requires Inv(w, s)
    ensures Inv(w, s.(oracle := O.Step(s.oracle, x, w.sha)))
  {
    var o := O.Step(s.oracle, x, w.sha);
    O.StepKeepsInv(s.oracle, x, w.sha);
    OracleLogGrows(w, s.oracle, x);
    LogGrows(w, s.issued, s.issued, s.oracle.log, o.log, s.log);
    JobsGrow(w, s.oracle.log, o.log, s.log, s.log, s.now, s.now, s.jobs);
    assert forall e :: e in s.oracle.log ==> e in o.log;
  }

  /** The record of one more event keeps the invariant when the event is justified. */
  lemma RecordKeepsInv(w: World, s: State, e: Event)
    requires Inv(w, s) && EventOk(w, s.issued, s.oracle.log, s.log, e) && !e.OfferPublished?
    ensures Inv(w, s.(log := s.log + [e], spent := s.spent + if e.Swapped? then Raws(e.inputs) else {}))
  {
    LogSnoc(w, s.issued, s.oracle.log, s.log, e);
    SpentSnoc(s.log, e);
    JobsGrow(w, s.oracle.log, s.oracle.log, s.log, s.log + [e], s.now, s.now, s.jobs);
    OffersGrow(w, s.jobs, s.jobs, s.relay, s.relay, s.log, s.log + [e]);
  }

  lemma SetStageKeepsInv(w: World, s: State, id: nat, stage: Stage)
    requires Inv(w, s) && id in s.jobs && JobOk(w, s.oracle.log, s.log, s.now, id, s.jobs[id].(stage := stage))
    ensures Inv(w, SetStage(s, id, stage))
  {
    OffersGrow(w, s.jobs, SetStage(s, id, stage).jobs, s.relay, s.relay, s.log, s.log);
  }

  /** Messages that carry no offer of a Provider and no hash of the Oracle. */
  lemma RelayKeepsInv(w: World, s: State, relay: set<Message>)
    requires Inv(w, s) && s.relay <= relay && RelayOk(w, s.oracle.log, relay)
    requires forall m :: m in relay && m.OfferNotice? && m.provider in w.providers ==> m in s.relay
    ensures Inv(w, s.(relay := relay))
  {
    OffersGrow(w, s.jobs, s.jobs, s.relay, relay, s.log, s.log);
  }

  lemma SeenSoFar(w: World, s: State, j: nat)
    requires Inv(w, s) && j < |s.log|
    ensures s.log[j].seen <= |s.oracle.log|
  {
    assert EventOkAt(w, s.issued, s.oracle.log, s.log, j);
  }

  lemma OthersSwapKeepsInv(w: World, s: State, inputs: seq<Input>)
    requires Inv(w, s) && Enabled(w, s, OthersSwap(inputs))
    ensures Inv(w, Step(w, s, OthersSwap(inputs)))
  {
    var olog := s.oracle.log;
    var e := Swapped(inputs, s.now, |olog|, None, 0);
    assert olog[..|olog|] == olog;
    forall j | 0 <= j < |s.log| { SeenSoFar(w, s, j); }
    forall i | 0 <= i < |inputs|
      ensures InputOk(w, s.issued, s.log, inputs[i], s.now)
    {
    }
    RecordKeepsInv(w, s, e);
  }

  /** The Provider's own swap, as an event. */
  ghost function RedeemEvent(w: World, s: State, a: Action): Event
    requires a.Redeem? && a.job in s.jobs && s.jobs[a.job].stage.Delivered?
    requires |a.readings| == |s.jobs[a.job].stage.token.proofs|
  {
    var job := s.jobs[a.job];
    var token := job.stage.token;
    Swapped(SignedInputs(token, a.readings, a.preimage, job.provider), s.now, |s.oracle.log|, Some(a.job),
            SumAmounts(token.proofs) - w.fee(token.proofs))
  }

  lemma RedeemEventOk(w: World, s: State, a: Action)
    requires Inv(w, s) && a.Redeem? && Enabled(w, s, a)
    requires var token := s.jobs[a.job].stage.token;
      && PreimageFits(w, token, a.preimage) && SumAmounts(token.proofs) - w.fee(token.proofs) > 0
      && MintAccepts(w, s, SignedInputs(token, a.readings, a.preimage, s.jobs[a.job].provider))
    ensures EventOk(w, s.issued, s.oracle.log, s.log, RedeemEvent(w, s, a))
  {
    var job, olog := s.jobs[a.job], s.oracle.log;
    var e := RedeemEvent(w, s, a);
    assert JobOk(w, olog, s.log, s.now, a.job, job);
    assert olog[..|olog|] == olog;
    forall j | 0 <= j < |s.log| { SeenSoFar(w, s, j); }
    forall i | 0 <= i < |e.inputs|
      ensures InputOk(w, s.issued, s.log, e.inputs[i], s.now) && Available(w, olog, e.inputs[i].unlock)
    {
    }
    OwnSwapJustified(w, s, a.job, e.inputs, e.received, e);
  }

  lemma RedeemKeepsInv(w: World, s: State, a: Action)
    requires Inv(w, s) && a.Redeem? && Enabled(w, s, a)
    ensures Inv(w, OnRedeem(w, s, a))
  {
    var e := RedeemEvent(w, s, a);
    if PreimageFits(w, s.jobs[a.job].stage.token, a.preimage) && e.received > 0 && MintAccepts(w, s, e.inputs) {
      RedeemEventOk(w, s, a);
      RecordKeepsInv(w, s, e);
      FinishKeepsInv(w, s.(log := s.log + [e], spent := s.spent + Raws(e.inputs)), a.job);
    } else {
      FinishKeepsInv(w, s, a.job);
    }
  }

  lemma FinishKeepsInv(w: World, s: State, id: nat)
    requires Inv(w, s) && id in s.jobs
    ensures Inv(w, SetStage(s, id, Finished))
  {
    assert JobOk(w, s.oracle.log, s.log, s.now, id, s.jobs[id]);
    SetStageKeepsInv(w, s, id, Finished);
  }

  lemma OwnSwapJustified(w: World, s: State, id: nat, inputs: seq<Input>, amount: int, e: Event)
    requires Inv(w, s) && id in s.jobs && s.jobs[id].stage.Delivered?
    requires var token := s.jobs[id].stage.token;
      && amount == SumAmounts(token.proofs) - w.fee(token.proofs)
      && |inputs| == |token.proofs|
      && forall i :: 0 <= i < |inputs| ==>
           inputs[i].proof == token.proofs[i] && inputs[i].unlock.signers == {s.jobs[id].provider}
    requires e == Swapped(inputs, s.now, |s.oracle.log|, Some(id), amount)
    ensures OwnSwap(s.log, e)
  {
    var job := s.jobs[id];
    assert JobOk(w, s.oracle.log, s.log, s.now, id, job);
    var k :| 0 <= k < |s.log| && StartedAt(s.log[k], id, job, job.stage.token, job.stage.terms);
    assert EventOkAt(w, s.issued, s.oracle.log, s.log, k);
    assert PaysFor(s.log[k], e);
  }

  lemma WorkEventOk(w: World, s: State, id: nat)
    requires Inv(w, s) && id in s.jobs && s.jobs[id].stage.TermsChecked?
    requires AllUnspent(s, s.jobs[id].stage.token)
    ensures EventOk(w, s.issued, s.oracle.log, s.log, WorkEvent(s, id))
  {
    var olog := s.oracle.log;
    assert JobOk(w, olog, s.log, s.now, id, s.jobs[id]);
    assert olog[..|olog|] == olog;
    forall j | 0 <= j < |s.log| { SeenSoFar(w, s, j); }
  }

  lemma StartWorkKeepsInv(w: World, s: State, id: nat)
    requires Inv(w, s) && id in s.jobs && s.jobs[id].stage.TermsChecked?
    requires AllUnspent(s, s.jobs[id].stage.token)
    ensures Inv(w, SetStage(s.(log := s.log + [WorkEvent(s, id)]), id,
                            Working(s.jobs[id].stage.token, s.jobs[id].stage.terms)))
  {
    var job, e := s.jobs[id], WorkEvent(s, id);
    WorkEventOk(w, s, id);
    RecordKeepsInv(w, s, e);
    var s1 := s.(log := s.log + [e]);
    assert s.spent + {} == s.spent;
    assert Inv(w, s1);
    assert StartedAt(s1.log[|s.log|], id, job, job.stage.token, job.stage.terms);
    StartedJobOk(w, s1, id, job.stage.token, job.stage.terms);
    SetStageKeepsInv(w, s1, id, Working(job.stage.token, job.stage.terms));
  }

  lemma CheckUnspentKeepsInv(w: World, s: State, id: nat)
    requires Inv(w, s) && Enabled(w, s, CheckUnspent(id))
    ensures Inv(w, JobStep(w, s, CheckUnspent(id)))
  {
    if AllUnspent(s, s.jobs[id].stage.token) {
      StartWorkKeepsInv(w, s, id);
    } else {
      assert JobOk(w, s.oracle.log, s.log, s.now, id, s.jobs[id]);
      SetStageKeepsInv(w, s, id, Finished);
    }
  }

  lemma StartedJobOk(w: World, s: State, id: nat, token: Token, terms: LockTerms)
    requires id in s.jobs && JobOk(w, s.oracle.log, s.log, s.now, id, s.jobs[id])
    requires Started(s.log, id, s.jobs[id], token, terms) && terms.amountSats == s.jobs[id].amount
    ensures JobOk(w, s.oracle.log, s.log, s.now, id, s.jobs[id].(stage := Working(token, terms)))
  {
    var k :| 0 <= k < |s.log| && StartedAt(s.log[k], id, s.jobs[id], token, terms);
    assert StartedAt(s.log[k], id, s.jobs[id].(stage := Working(token, terms)), token, terms);
  }

  lemma JobStepKeepsInv(w: World, s: State, a: Action)
    requires Inv(w, s) && Enabled(w, s, a)
    requires a.ReceiveSelection? || a.ReceiveHash? || a.CheckTerms? || a.CheckUnspent? || a.PublishResult?
    ensures Inv(w, JobStep(w, s, a))
  {
    if a.CheckUnspent? {
      CheckUnspentKeepsInv(w, s, a.job);
    } else {
      var s1 := JobStep(w, s, a);
      NextStageOk(w, s, a);
      SetStageKeepsInv(w, s, a.job, s1.jobs[a.job].stage);
      ResultKeepsInv(w, SetStage(s, a.job, s1.jobs[a.job].stage), s1.relay);
    }
  }

  lemma NextStageOk(w: World, s: State, a: Action)
    requires Inv(w, s) && Enabled(w, s, a)
    requires a.ReceiveSelection? || a.ReceiveHash? || a.CheckTerms? || a.PublishResult?
    ensures JobOk(w, s.oracle.log, s.log, s.now, a.job, JobStep(w, s, a).jobs[a.job])
    ensures JobStep(w, s, a) == SetStage(s, a.job, JobStep(w, s, a).jobs[a.job].stage).(relay := JobStep(w, s, a).relay)
    ensures forall m :: m in JobStep(w, s, a).relay && !m.ResultNotice? ==> m in s.relay
    ensures s.relay <= JobStep(w, s, a).relay
  {
    assert JobOk(w, s.oracle.log, s.log, s.now, a.job, s.jobs[a.job]);
  }

  lemma ResultKeepsInv(w: World, s: State, relay: set<Message>)
    requires Inv(w, s) && s.relay <= relay && forall m :: m in relay && !m.ResultNotice? ==> m in s.relay
    ensures Inv(w, s.(relay := relay))
  {
    RelayKeepsInv(w, s, relay);
  }

  /** A Customer publishes no hash and changes nothing but its session. */
  lemma CustomerStepKeepsInv(w: World, s: State, a: Action)
    requires Inv(w, s) && Enabled(w, s, a) && (a.CustomerRequests? || a.CustomerHears? || a.CustomerSelects?)
    ensures Inv(w, Step(w, s, a))
  {
    var s1 := Step(w, s, a);
    assert s1 == s.(relay := s1.relay).(sessions := s1.sessions);
    assert forall m :: m in s1.relay && (m.HashResponse? || m.OfferNotice?) ==> m in s.relay;
    RelayKeepsInv(w, s, s1.relay);
  }

  lemma OfferKeepsLog(w: World, s: State, a: Action)
    requires Inv(w, s) && Enabled(w, s, a) && a.Offer?
    ensures LogOk(w, s.issued, s.oracle.log, Step(w, s, a).log)
  {
    var e := OfferPublished(a.job, a.provider, a.request, a.amount, |s.oracle.log|);
    forall j | 0 <= j < |s.log| { SeenSoFar(w, s, j); }
    forall j: nat | OffersAt(s.log, j)
      ensures s.log[j].job != a.job
    {
      assert OfferShown(s.jobs, s.relay, s.log, j);
    }
    LogSnoc(w, s.issued, s.oracle.log, s.log, e);
  }

  lemma OfferKeepsJobs(w: World, s: State, a: Action)
    requires JobsOk(w, s.oracle.log, s.log, s.now, s.jobs) && Enabled(w, s, a) && a.Offer?
    ensures var s1 := Step(w, s, a); JobsOk(w, s.oracle.log, s1.log, s.now, s1.jobs)
  {
    var s1 := Step(w, s, a);
    JobsGrow(w, s.oracle.log, s.oracle.log, s.log, s1.log, s.now, s.now, s.jobs);
    assert OfferAt(s1.log, |s.log|, a.job, a.provider, a.request, a.amount);
    assert JobOk(w, s.oracle.log, s1.log, s.now, a.job, s1.jobs[a.job]);
  }

  lemma OfferKeepsInv(w: World, s: State, a: Action)
    requires Inv(w, s) && Enabled(w, s, a) && a.Offer?
    ensures Inv(w, Step(w, s, a))
  {
    OfferKeepsLog(w, s, a);
    OfferKeepsJobs(w, s, a);
    OfferKeepsOffers(w, s, a);
    SpentSnoc(s.log, OfferPublished(a.job, a.provider, a.request, a.amount, |s.oracle.log|));
    assert s.spent + {} == s.spent;
  }

  lemma OfferKeepsOffers(w: World, s: State, a: Action)
    requires OffersOk(w, s.jobs, s.relay, s.log) && Enabled(w, s, a) && a.Offer?
    ensures var s1 := Step(w, s, a); OffersOk(w, s1.jobs, s1.relay, s1.log)
  {
    var s1 := Step(w, s, a);
    forall k: nat
      ensures OfferShown(s1.jobs, s1.relay, s1.log, k)
    {
      assert OfferShown(s.jobs, s.relay, s.log, k);
    }
    forall m
      ensures NoticeBacked(w, s1.relay, s1.log, m)
    {
      assert NoticeBacked(w, s.relay, s.log, m);
      if m in s.relay && m.OfferNotice? && m.provider in w.providers {
        NoticeStands(s.log, s1.log, m);
      } else if m == OfferNotice(a.provider, a.request.eventId, a.amount) {
        assert NoticeOf(s1.log, |s.log|, m);
      }
    }
  }

  lemma StepKeepsInv(w: World, s: State, a: Action)
    requires Inv(w, s)
    ensures Inv(w, Step(w, s, a))
  {
    if Enabled(w, s, a) {
      if a.OracleActs? {
        OracleActsKeepsInv(w, s, a.action);
      } else if a.OracleAnswers? || a.OthersPublish? || a.TimePasses? || a.MintSigns? {
        OutsideKeepsInv(w, s, a);
      } else if a.OthersSwap? {
        OthersSwapKeepsInv(w, s, a.inputs);
      } else if a.CustomerRequests? || a.CustomerHears? || a.CustomerSelects? {
        CustomerStepKeepsInv(w, s, a);
      } else if a.Offer? {
        OfferKeepsInv(w, s, a);
      } else if a.Redeem? {
        RedeemKeepsInv(w, s, a);
      } else {
        JobStepKeepsInv(w, s, a);
      }
    }
  }

  /** New messages, new time, new coins. */
  lemma OutsideKeepsInv(w: World, s: State, a: Action)
    requires Inv(w, s) && Enabled(w, s, a) && (a.OracleAnswers? || a.OthersPublish? || a.TimePasses? || a.MintSigns?)
    ensures Inv(w, Step(w, s, a))
  {
    if a.TimePasses? {
      JobsGrow(w, s.oracle.log, s.oracle.log, s.log, s.log, s.now, s.now + a.seconds, s.jobs);
    } else if a.MintSigns? {
      LogGrows(w, s.issued, s.issued + {a.proof}, s.oracle.log, s.oracle.log, s.log);
    } else {
      RelayKeepsInv(w, s, Step(w, s, a).relay);
    }
  }

  lemma {:induction false} EveryRunKeepsInv(w: World, retries: nat, frost: O.FrostSetup, now: int, actions: seq<Action>)
    ensures Inv(w, Exec(w, Init(retries, frost, now), actions))
  {
    if actions != [] {
      EveryRunKeepsInv(w, retries, frost, now, actions[..|actions| - 1]);
      StepKeepsInv(w, Exec(w, Init(retries, frost, now), actions[..|actions| - 1]), actions[|actions| - 1]);
    }
  }

  // ---- Main results ----

  /**
   Every run: a Provider that starts work holds a lock as WorkIsCovered describes, for the amount of the one offer it
   made for that job and published on the relay, and nothing else makes it work.
   */
  lemma ProvidersWorkOnlyWhenCovered(
    w: World, retries: nat, frost: O.FrostSetup, now: int, actions: seq<Action>, k: nat)
    requires var s := Exec(w, Init(retries, frost, now), actions); k < |s.log| && s.log[k].WorkStarted?
    ensures var s := Exec(w, Init(retries, frost, now), actions);
      && WorkIsCovered(w, s.issued, s.oracle.log, s.log[..k], s.log[k])
      && OfferNotice(s.log[k].provider, s.log[k].request.eventId, s.log[k].terms.amountSats) in s.relay
      && forall o: nat :: OffersAt(s.log, o) && s.log[o].job == s.log[k].job ==>
           o < k && OfferAt(s.log, o, s.log[k].job, s.log[k].provider, s.log[k].request, s.log[k].terms.amountSats)
  {
    EveryRunKeepsInv(w, retries, frost, now, actions);
    var s := Exec(w, Init(retries, frost, now), actions);
    var i := WorkHasOffer(w, s, k);
    forall o: nat | OffersAt(s.log, o) && s.log[o].job == s.log[k].job
      ensures o == i
    {
      OfferedOnce(w, s, o, i);
    }
  }

  /** The one offer behind a started job. */
  lemma WorkHasOffer(w: World, s: State, k: nat) returns (o: nat)
    requires Inv(w, s) && k < |s.log| && s.log[k].WorkStarted?
    ensures WorkIsCovered(w, s.issued, s.oracle.log, s.log[..k], s.log[k])
    ensures o < k && OfferAt(s.log, o, s.log[k].job, s.log[k].provider, s.log[k].request, s.log[k].terms.amountSats)
    ensures OfferNotice(s.log[k].provider, s.log[k].request.eventId, s.log[k].terms.amountSats) in s.relay
  {
    assert EventOkAt(w, s.issued, s.oracle.log, s.log, k);
    var e := s.log[k];
    o :| OfferAt(s.log[..k], o, e.job, e.provider, e.request, e.terms.amountSats);
    assert OfferShown(s.jobs, s.relay, s.log, o);
  }

  lemma OfferedOnce(w: World, s: State, i: nat, j: nat)
    requires Inv(w, s) && OffersAt(s.log, i) && OffersAt(s.log, j) && s.log[i].job == s.log[j].job
    ensures i == j
  {
    if i < j {
      LaterOfferDiffers(w, s, i, j);
    } else if j < i {
      LaterOfferDiffers(w, s, j, i);
    }
  }

  lemma LaterOfferDiffers(w: World, s: State, i: nat, j: nat)
    requires Inv(w, s) && OffersAt(s.log, i) && OffersAt(s.log, j) && i < j
    ensures s.log[i].job != s.log[j].job
  {
    assert EventOkAt(w, s.issued, s.oracle.log, s.log, j);
    assert OffersAt(s.log[..j], i);
  }

  lemma {:induction false} SwappedIsSpent(log: seq<Event>, k: nat, i: nat)
    requires k < |log| && log[k].Swapped? && i < |log[k].inputs|
    ensures log[k].inputs[i].proof.secret.raw in SpentIn(log)
  {
    if k == |log| - 1 {
      assert log[k].inputs[i].proof.secret.raw in Raws(log[k].inputs);
    } else {
      SwappedIsSpent(log[..|log| - 1], k, i);
    }
  }

  /** Every run: no secret is spent twice, in one swap or in two. */
  lemma EachLockSpentAtMostOnce(
    w: World, retries: nat, frost: O.FrostSetup, now: int, actions: seq<Action>, k: nat, i: nat, k': nat, i': nat)
    requires var log := Exec(w, Init(retries, frost, now), actions).log;
      && k < |log| && log[k].Swapped? && i < |log[k].inputs|
      && k' < |log| && log[k'].Swapped? && i' < |log[k'].inputs|
      && log[k].inputs[i].proof.secret.raw == log[k'].inputs[i'].proof.secret.raw
    ensures k == k' && i == i'
  {
    EveryRunKeepsInv(w, retries, frost, now, actions);
    var s := Exec(w, Init(retries, frost, now), actions);
    assert EventOkAt(w, s.issued, s.oracle.log, s.log, k);
    assert EventOkAt(w, s.issued, s.oracle.log, s.log, k');
    assert InputOk(w, s.issued, s.log[..k], s.log[k].inputs[i], s.log[k].at);
    assert InputOk(w, s.issued, s.log[..k'], s.log[k'].inputs[i'], s.log[k'].at);
    if k < k' {
      SwappedIsSpent(s.log[..k'], k, i);
    } else if k' < k {
      SwappedIsSpent(s.log[..k], k', i');
    }
  }

  /** The digest function prints lower-case text. */
  ghost predicate CanonicalDigest(sha: string -> string) {
    forall x :: Text.Lower(sha(x)) == sha(x)
  }

  lemma LogOkPrefix(log: seq<O.Event>, n: nat)
    requires O.LogOk(log) && n <= |log|
    ensures O.LogOk(log[..n])
  {
    forall k: nat
      ensures O.JustifiedAt(log[..n], k)
    {
      assert O.JustifiedAt(log, k);
      if k < n {
        assert log[..n][..k] == log[..k];
      }
    }
  }

  /** A hash the Oracle answered and later sent belongs to one query, and was sent only as ReleaseOk describes. */
  lemma SentBelongsToQuery(olog: seq<O.Event>, n: nat, q: string, hash: string) returns (m: nat)
    requires O.LogOk(olog) && O.UniqueHashes(olog) && n <= |olog|
    requires O.Answered(q, hash) in olog[..n] && SentHash(olog[..n], hash)
    ensures m < n && olog[m].Sent? && olog[m].release.hash == hash && olog[m].release.sub.queryId == q
    ensures O.ReleaseOk(olog[..m], olog[m].release)
  {
    LogOkPrefix(olog, n);
    var i := OracleRetention.AnsweredWasDrawn(olog[..n], q, hash);
    var r: O.Release :| r.hash == hash && O.Sent(r) in olog[..n];
    m :| 0 <= m < n && olog[..n][m] == O.Sent(r);
    assert O.JustifiedAt(olog, m);
    var j :| 0 <= j < m && olog[..m][j] == O.Created(r.sub.queryId, r.hash, r.preimage);
    assert O.SameCreation(olog, i, j);
  }

  /**
   Work started at j on a lock with unambiguous tags and on the Oracle's hash, and a swap at k that takes one of its
   proofs.
   */
  ghost predicate TakesLock(w: World, s: State, j: nat, k: nat, i: nat) {
    && j < |s.log| && s.log[j].WorkStarted? && s.log[j].request.oracle == w.oracleKey
    && IsNostrKey(s.log[j].provider) && IsNostrKey(s.log[j].request.customer)
    && k < |s.log| && s.log[k].Swapped? && i < |s.log[k].inputs|
    && s.log[k].inputs[i].proof in s.log[j].token.proofs
    && s.log[k].inputs[i].proof.secret.WellKnown? && UniqueTags(s.log[k].inputs[i].proof.secret.tags)
  }

  /** The Customer's way out: signed by the Customer after the locktime. */
  predicate Refunded(start: Event, swap: Event, i: nat)
    requires start.WorkStarted? && swap.Swapped? && i < |swap.inputs|
  {
    swap.at > start.terms.locktimeSeconds && start.request.customer in swap.inputs[i].unlock.signers
  }

  /** The Provider's own redeem, after the Oracle sent the preimage for this query at m. */
  ghost predicate Earned(past: seq<Event>, olog: seq<O.Event>, start: Event, swap: Event, i: nat, m: nat)
    requires start.WorkStarted? && swap.Swapped? && i < |swap.inputs|
  {
    && swap.redeemer.Some? && OwnSwap(past, swap) && swap.inputs[i].unlock.signers == {start.provider}
    && m < swap.seen <= |olog| && olog[m].Sent?
    && olog[m].release.hash == start.terms.hashHex
    && olog[m].release.sub.queryId == start.request.queryId
    && O.ReleaseOk(olog[..m], olog[m].release)
  }

  lemma StartFacts(w: World, s: State, j: nat)
    requires Inv(w, s) && j < |s.log| && s.log[j].WorkStarted?
    ensures WorkIsCovered(w, s.issued, s.oracle.log, s.log[..j], s.log[j])
  {
    assert EventOkAt(w, s.issued, s.oracle.log, s.log, j);
  }

  lemma SwapFacts(w: World, s: State, k: nat, i: nat)
    requires Inv(w, s) && k < |s.log| && s.log[k].Swapped? && i < |s.log[k].inputs|
    ensures ValidInput(w, s.log[k].inputs[i], s.log[k].at)
    ensures s.log[k].seen <= |s.oracle.log| && AllAvailable(w, s.oracle.log[..s.log[k].seen], s.log[k].inputs)
    ensures
      || s.log[k].inputs[i].unlock.signers !! w.providers
      || (s.log[k].redeemer.Some? && OwnSwap(s.log[..k], s.log[k]))
    ensures forall j :: 0 <= j < k ==> s.log[j].seen <= s.log[k].seen
  {
    assert EventOkAt(w, s.issued, s.oracle.log, s.log, k);
    assert InputOk(w, s.issued, s.log[..k], s.log[k].inputs[i], s.log[k].at);
    assert forall j :: 0 <= j < k ==> s.log[..k][j] == s.log[j];
  }

  lemma NotSpentBefore(w: World, s: State, j: nat, proof: Proof)
    requires Inv(w, s) && j < |s.log| && s.log[j].WorkStarted? && proof in s.log[j].token.proofs
    ensures proof.secret.raw !in SpentIn(s.log[..j])
  {
    StartFacts(w, s, j);
  }

  lemma TakenAfterStart(w: World, s: State, j: nat, k: nat, i: nat)
    requires Inv(w, s) && j < |s.log| && s.log[j].WorkStarted?
    requires k < |s.log| && s.log[k].Swapped? && i < |s.log[k].inputs|
    requires s.log[k].inputs[i].proof in s.log[j].token.proofs
    ensures j < k
  {
    NotSpentBefore(w, s, j, s.log[k].inputs[i].proof);
    if k < j {
      SwappedIsSpent(s.log[..j], k, i);
      assert false;
    }
  }

  lemma TakenOnlyAfterRelease(w: World, s: State, j: nat, k: nat, i: nat) returns (m: nat)
    requires Inv(w, s) && CanonicalDigest(w.sha) && TakesLock(w, s, j, k, i)
    ensures j < k && (Refunded(s.log[j], s.log[k], i) || Earned(s.log[..k], s.oracle.log, s.log[j], s.log[k], i, m))
  {
    m := 0;
    var start, swap, olog := s.log[j], s.log[k], s.oracle.log;
    StartFacts(w, s, j);
    SwapFacts(w, s, k, i);
    TakenAfterStart(w, s, j, k, i);
    SpendingRule(w, start.terms, start.token, swap.inputs[i], swap.at, start.checkedAt);
    if !Refunded(start, swap, i) {
      OwnSwapSigners(s.log[..k], swap, i, start.provider);
      SentBeforeSwap(w, olog, start, swap, i);
      m := SentBelongsToQuery(olog, swap.seen, start.request.queryId, start.terms.hashHex);
    }
  }

  /**
   End-to-end safety, in every run: once a Provider started work on a lock, the lock is spent later or never, and only
   in two ways. Either the Provider's own redeem took it after the Oracle sent the preimage of that hash, which it does
   only after verification passed for that query; or the locktime was over and the Customer signed.
   */
  lemma LockIsRedeemedOnlyAfterRelease(
    w: World, retries: nat, frost: O.FrostSetup, now: int, actions: seq<Action>, j: nat, k: nat, i: nat)
    returns (m: nat)
    requires CanonicalDigest(w.sha) && TakesLock(w, Exec(w, Init(retries, frost, now), actions), j, k, i)
    ensures var s := Exec(w, Init(retries, frost, now), actions);
      j < k && (Refunded(s.log[j], s.log[k], i) || Earned(s.log[..k], s.oracle.log, s.log[j], s.log[k], i, m))
  {
    EveryRunKeepsInv(w, retries, frost, now, actions);
    m := TakenOnlyAfterRelease(w, Exec(w, Init(retries, frost, now), actions), j, k, i);
  }

  lemma SpendingRule(w: World, terms: LockTerms, token: Token, input: Input, at: int, checkedAt: int)
    requires Acceptable(token.proofs, terms, w.fee(token.proofs), checkedAt) && input.proof in token.proofs
    requires IsNostrKey(terms.providerPubkey) && IsNostrKey(terms.customerPubkey)
    requires input.proof.secret.WellKnown? && UniqueTags(input.proof.secret.tags) && ValidInput(w, input, at)
    ensures
      || (&& input.unlock.preimage.Some? && w.sha(input.unlock.preimage.value) == Text.Lower(terms.hashHex)
          && terms.providerPubkey in input.unlock.signers)
      || (at > terms.locktimeSeconds && terms.customerPubkey in input.unlock.signers)
  {
    var n :| 0 <= n < |token.proofs| && token.proofs[n] == input.proof;
    AcceptedSecretMeaning(w.sha, input.proof.secret, n, terms, input.conditions, input.unlock, at);
  }

  lemma OwnSwapSigners(past: seq<Event>, swap: Event, i: nat, provider: string)
    requires swap.Swapped? && swap.redeemer.Some? && OwnSwap(past, swap) && i < |swap.inputs|
    requires provider in swap.inputs[i].unlock.signers
    ensures swap.inputs[i].unlock.signers == {provider}
  {
    var j :| 0 <= j < |past| && PaysFor(past[j], swap);
    assert swap.inputs[i].unlock.signers == {past[j].provider};
  }

  lemma SentBeforeSwap(w: World, olog: seq<O.Event>, start: Event, swap: Event, i: nat)
    requires CanonicalDigest(w.sha) && O.LogOk(olog) && HashesAreDigests(w, olog)
    requires start.WorkStarted? && swap.Swapped? && i < |swap.inputs| && start.seen <= swap.seen <= |olog|
    requires O.Answered(start.request.queryId, start.terms.hashHex) in olog[..start.seen]
    requires AllAvailable(w, olog[..swap.seen], swap.inputs)
    requires swap.inputs[i].unlock.preimage.Some?
    requires w.sha(swap.inputs[i].unlock.preimage.value) == Text.Lower(start.terms.hashHex)
    ensures O.Answered(start.request.queryId, start.terms.hashHex) in olog[..swap.seen]
    ensures SentHash(olog[..swap.seen], start.terms.hashHex)
  {
    var past, q, h := olog[..swap.seen], start.request.queryId, start.terms.hashHex;
    assert olog[..start.seen] <= past;
    LogOkPrefix(olog, swap.seen);
    var d := OracleRetention.AnsweredWasDrawn(past, q, h);
    var e := past[d];
    assert e in olog && e in past;
    assert Text.Lower(h) == h;
    assert Available(w, past, swap.inputs[i].unlock);
  }

  /**
   Every run: a Provider's redeem pays exactly the amount of the offer at o, the one offer this Provider made for the
   job and published on the relay, which is within the request's budget.
   */
  lemma ProviderIsPaidThePrice(w: World, retries: nat, frost: O.FrostSetup, now: int, actions: seq<Action>, k: nat)
    returns (o: nat, j: nat)
    requires var s := Exec(w, Init(retries, frost, now), actions);
      k < |s.log| && s.log[k].Swapped? && s.log[k].redeemer.Some?
    ensures var s := Exec(w, Init(retries, frost, now), actions);
      && o < j < k && PaysFor(s.log[j], s.log[k])
      && OfferAt(s.log, o, s.log[k].redeemer.value, s.log[j].provider, s.log[j].request, s.log[k].received)
      && (forall i: nat :: OffersAt(s.log, i) && s.log[i].job == s.log[k].redeemer.value ==> i == o)
      && OfferNotice(s.log[j].provider, s.log[j].request.eventId, s.log[k].received) in s.relay
      && 0 < s.log[k].received <= s.log[j].request.maxAmount
      && s.log[k].received == SumAmounts(s.log[j].token.proofs) - w.fee(s.log[j].token.proofs)
  {
    EveryRunKeepsInv(w, retries, frost, now, actions);
    var s := Exec(w, Init(retries, frost, now), actions);
    assert EventOkAt(w, s.issued, s.oracle.log, s.log, k);
    j :| 0 <= j < k && PaysFor(s.log[..k][j], s.log[k]);
    o := WorkHasOffer(w, s, j);
    forall i: nat | OffersAt(s.log, i) && s.log[i].job == s.log[k].redeemer.value
      ensures i == o
    {
      OfferedOnce(w, s, i, o);
    }
  }

  /** Every proof of a started job's token still carries the mint's signature. */
  lemma StartedProofsAreIssued(w: World, s: State, id: nat)
    requires Inv(w, s) && id in s.jobs && s.jobs[id].stage.Delivered?
    ensures forall p :: p in s.jobs[id].stage.token.proofs ==> p in s.issued
  {
    var job := s.jobs[id];
    assert JobOk(w, s.oracle.log, s.log, s.now, id, job);
    var k :| 0 <= k < |s.log| && StartedAt(s.log[k], id, job, job.stage.token, job.stage.terms);
    StartFacts(w, s, k);
  }

  predicate NoneSpent(s: State, token: Token) {
    forall p :: p in token.proofs ==> p.secret.raw !in s.spent
  }

  /** Each proof of a delivered job's token is unlocked by the preimage and the Provider's signature. */
  lemma DeliveredProofsUnlock(w: World, s: State, a: Action)
    requires RedeemsDelivered(w, s, a)
    ensures var job := s.jobs[a.job];
      var inputs := SignedInputs(job.stage.token, a.readings, a.preimage, job.provider);
      && PreimageFits(w, job.stage.token, a.preimage)
      && forall i :: 0 <= i < |inputs| ==> ValidInput(w, inputs[i], s.now)
  {
    var job := s.jobs[a.job];
    var token, terms := job.stage.token, job.stage.terms;
    var inputs := SignedInputs(token, a.readings, a.preimage, job.provider);
    DeliveredFacts(w, s, a.job);
    forall i | 0 <= i < |inputs|
      ensures token.proofs[i].secret.WellKnown? && token.proofs[i].secret.kind == "HTLC"
      ensures token.proofs[i].secret.data == Some(w.sha(a.preimage))
      ensures ValidInput(w, inputs[i], s.now)
    {
      assert CheckSecret(token.proofs[i].secret, i, terms).None?;
      AcceptedSecretMeaning(w.sha, token.proofs[i].secret, i, terms, a.readings[i], inputs[i].unlock, s.now);
    }
  }

  /** A redeem of a delivered job with a preimage of its hash, on proofs whose tags have one reading. */
  ghost predicate RedeemsDelivered(w: World, s: State, a: Action) {
    && Inv(w, s) && a.Redeem? && a.job in s.jobs && s.jobs[a.job].stage.Delivered?
    && IsNostrKey(s.jobs[a.job].provider) && IsNostrKey(s.jobs[a.job].request.customer)
    && w.sha(a.preimage) == Text.Lower(s.jobs[a.job].stage.terms.hashHex)
    && HaveOneReading(s.jobs[a.job].stage.token.proofs, a.readings)
  }

  ghost predicate HaveOneReading(proofs: seq<Proof>, readings: seq<Conditions>) {
    && |readings| == |proofs|
    && forall i :: 0 <= i < |proofs| && proofs[i].secret.WellKnown? ==>
         UniqueTags(proofs[i].secret.tags) && Reads(proofs[i].secret.tags, readings[i])
  }

  lemma SignedInputsFacts(token: Token, readings: seq<Conditions>, preimage: string, provider: string)
    requires |readings| == |token.proofs|
    ensures var inputs := SignedInputs(token, readings, preimage, provider);
      && Secrets(inputs) == SecretsOf(token.proofs)
      && (DistinctSecrets(token.proofs) ==> DistinctInputs(inputs))
      && forall i :: 0 <= i < |inputs| ==> inputs[i].proof == token.proofs[i]
  {
  }

  /** With issued, distinct, unlocked inputs only earlier spends and the SIG_ALL rule can refuse the swap. */
  lemma AcceptsIff(w: World, s: State, inputs: seq<Input>)
    requires inputs != [] && DistinctInputs(inputs)
    requires forall i :: 0 <= i < |inputs| ==> inputs[i].proof in s.issued && ValidInput(w, inputs[i], s.now)
    ensures MintAccepts(w, s, inputs) <==>
      OneCondition(Secrets(inputs)) && forall i :: 0 <= i < |inputs| ==> inputs[i].proof.secret.raw !in s.spent
  {
  }

  /** What is known of a token when its delivered job is redeemed. */
  ghost predicate ReadyToRedeem(w: World, s: State, token: Token, inputs: seq<Input>) {
    && token.proofs != [] && DistinctSecrets(token.proofs)
    && (forall p :: p in token.proofs ==> p in s.issued)
    && (forall i :: 0 <= i < |inputs| ==> ValidInput(w, inputs[i], s.now))
    && (OneCondition(SecretsOf(token.proofs)) <==> EqualTags(token.proofs))
  }

  lemma DeliveredIsReady(w: World, s: State, a: Action)
    requires RedeemsDelivered(w, s, a)
    ensures var job := s.jobs[a.job];
      ReadyToRedeem(w, s, job.stage.token, SignedInputs(job.stage.token, a.readings, a.preimage, job.provider))
  {
    DeliveredFacts(w, s, a.job);
    StartedProofsAreIssued(w, s, a.job);
    DeliveredProofsUnlock(w, s, a);
    DeliveredShareConditionIff(w, s, a.job);
  }

  lemma MintTakesIff(w: World, s: State, token: Token, readings: seq<Conditions>, preimage: string, provider: string)
    requires |readings| == |token.proofs|
    requires ReadyToRedeem(w, s, token, SignedInputs(token, readings, preimage, provider))
    ensures MintAccepts(w, s, SignedInputs(token, readings, preimage, provider)) <==>
      NoneSpent(s, token) && EqualTags(token.proofs)
  {
    var inputs := SignedInputs(token, readings, preimage, provider);
    SignedInputsFacts(token, readings, preimage, provider);
    AcceptsIff(w, s, inputs);
    NoneSpentIff(s, token, inputs);
  }

  lemma NoneSpentIff(s: State, token: Token, inputs: seq<Input>)
    requires |inputs| == |token.proofs| && forall i :: 0 <= i < |inputs| ==> inputs[i].proof == token.proofs[i]
    ensures NoneSpent(s, token) <==> forall i :: 0 <= i < |inputs| ==> inputs[i].proof.secret.raw !in s.spent
  {
    if forall i :: 0 <= i < |inputs| ==> inputs[i].proof.secret.raw !in s.spent {
      forall p | p in token.proofs
        ensures p.secret.raw !in s.spent
      {
        var i :| 0 <= i < |token.proofs| && token.proofs[i] == p;
        assert inputs[i].proof == p;
      }
    }
  }

  lemma DeliveredShareConditionIff(w: World, s: State, id: nat)
    requires Inv(w, s) && id in s.jobs && s.jobs[id].stage.Delivered?
    ensures var proofs := s.jobs[id].stage.token.proofs; OneCondition(SecretsOf(proofs)) <==> EqualTags(proofs)
  {
    var job := s.jobs[id];
    assert JobOk(w, s.oracle.log, s.log, s.now, id, job);
    var k :| 0 <= k < |s.log| && StartedAt(s.log[k], id, job, job.stage.token, job.stage.terms);
    StartFacts(w, s, k);
    AcceptedShareConditionIff(job.stage.token.proofs, job.stage.terms,
      w.fee(job.stage.token.proofs), s.log[k].checkedAt);
  }

  /**
   A delivered job redeems with any preimage of the lock's hash, at any time and for the amount this job was offered
   at, exactly when none of the token's proofs was spent before and all of them carry equal tags.
   */
  lemma UnspentLockRedeemsIff(w: World, s: State, a: Action)
    requires RedeemsDelivered(w, s, a)
    ensures var job := s.jobs[a.job];
      var inputs := SignedInputs(job.stage.token, a.readings, a.preimage, job.provider);
      && OfferIn(s.log, a.job, job.provider, job.request, job.amount)
      && OnRedeem(w, s, a).log ==
         if NoneSpent(s, job.stage.token) && EqualTags(job.stage.token.proofs)
         then s.log + [Swapped(inputs, s.now, |s.oracle.log|, Some(a.job), job.amount)]
         else s.log
  {
    DeliveredFacts(w, s, a.job);
    DeliveredProofsUnlock(w, s, a);
    DeliveredIsReady(w, s, a);
    MintTakesIff(w, s, s.jobs[a.job].stage.token, a.readings, a.preimage, s.jobs[a.job].provider);
    RedeemLog(w, s, a);
  }

  lemma RedeemLog(w: World, s: State, a: Action)
    requires a.Redeem? && a.job in s.jobs && s.jobs[a.job].stage.Delivered?
    requires |a.readings| == |s.jobs[a.job].stage.token.proofs|
    ensures var job := s.jobs[a.job];
      var inputs := SignedInputs(job.stage.token, a.readings, a.preimage, job.provider);
      var amount := SumAmounts(job.stage.token.proofs) - w.fee(job.stage.token.proofs);
      OnRedeem(w, s, a).log ==
        if PreimageFits(w, job.stage.token, a.preimage) && amount > 0 && MintAccepts(w, s, inputs)
        then s.log + [Swapped(inputs, s.now, |s.oracle.log|, Some(a.job), amount)]
        else s.log
  {
  }

  lemma DeliveredFacts(w: World, s: State, id: nat)
    requires Inv(w, s) && id in s.jobs && s.jobs[id].stage.Delivered?
    ensures var job := s.jobs[id];
      var token, terms := job.stage.token, job.stage.terms;
      && terms.providerPubkey == job.provider && terms.customerPubkey == job.request.customer
      && token.proofs != [] && DistinctSecrets(token.proofs)
      && 0 < terms.amountSats == job.amount == SumAmounts(token.proofs) - w.fee(token.proofs)
      && OfferIn(s.log, id, job.provider, job.request, job.amount)
      && forall i :: 0 <= i < |token.proofs| ==> CheckSecret(token.proofs[i].secret, i, terms).None?
  {
    var job := s.jobs[id];
    assert JobOk(w, s.oracle.log, s.log, s.now, id, job);
    var k :| 0 <= k < |s.log| && StartedAt(s.log[k], id, job, job.stage.token, job.stage.terms);
    StartFacts(w, s, k);
  }

  // ---- A matching exchange completes ----

  /**
   What the Provider of an open job waits for: a matching selection, the Oracle's hash, an acceptable unspent token.
   */
  ghost predicate Matches(w: World, s: State, j: nat, m: Message, hash: string) {
    && j in s.jobs && s.jobs[j].stage.Offered? && m in s.relay && SelectionMatches(w, s.jobs[j], m)
    && HashResponse(s.jobs[j].request.oracle, s.jobs[j].request.queryId, hash) in s.relay
    && m.token.mintUrl == w.mintUrl
    && Acceptable(m.token.proofs, TermsFor(s.jobs[j], m.execution, hash), w.fee(m.token.proofs), s.now)
    && AllUnspent(s, m.token)
  }

  /** The Provider's own steps up to its published result. */
  function JobScript(j: nat, m: Message, hash: string): seq<Action> {
    [ReceiveSelection(j, m), ReceiveHash(j, hash), CheckTerms(j), CheckUnspent(j), PublishResult(j)]
  }

  lemma ExecSnoc(w: World, s: State, actions: seq<Action>, a: Action)
    ensures Exec(w, s, actions + [a]) == Step(w, Exec(w, s, actions), a)
  {
    assert (actions + [a])[..|actions|] == actions;
  }

  lemma TakesSelection(w: World, s: State, j: nat, m: Message)
    requires j in s.jobs && s.jobs[j].stage.Offered? && m in s.relay && SelectionMatches(w, s.jobs[j], m)
    ensures Step(w, s, ReceiveSelection(j, m)) == SetStage(s, j, Chosen(m.token, m.execution))
  {
  }

  lemma LearnsHash(w: World, s: State, j: nat, hash: string)
    requires j in s.jobs && s.jobs[j].stage.Chosen?
    requires HashResponse(s.jobs[j].request.oracle, s.jobs[j].request.queryId, hash) in s.relay
    ensures Step(w, s, ReceiveHash(j, hash))
         == SetStage(s, j, HashKnown(s.jobs[j].stage.token, TermsFor(s.jobs[j], s.jobs[j].stage.execution, hash)))
  {
  }

  lemma SetStageTwice(s: State, j: nat, a: Stage, b: Stage)
    requires j in s.jobs
    ensures SetStage(SetStage(s, j, a), j, b) == SetStage(s, j, b)
  {
    assert s.jobs[j := s.jobs[j].(stage := a)][j := s.jobs[j].(stage := b)] == s.jobs[j := s.jobs[j].(stage := b)];
  }

  lemma ExecPair(w: World, s: State, a: Action, b: Action)
    ensures Exec(w, s, [a, b]) == Step(w, Step(w, s, a), b)
  {
    ExecSnoc(w, s, [], a);
    ExecSnoc(w, s, [a], b);
    assert [] + [a] == [a] && [a] + [b] == [a, b];
  }

  lemma ReachesHash(w: World, s: State, j: nat, m: Message, hash: string)
    requires Matches(w, s, j, m, hash)
    ensures Exec(w, s, [ReceiveSelection(j, m), ReceiveHash(j, hash)])
         == SetStage(s, j, HashKnown(m.token, TermsFor(s.jobs[j], m.execution, hash)))
  {
    ExecPair(w, s, ReceiveSelection(j, m), ReceiveHash(j, hash));
    TakesSelection(w, s, j, m);
    LearnsHash(w, SetStage(s, j, Chosen(m.token, m.execution)), j, hash);
    SetStageTwice(s, j, Chosen(m.token, m.execution), HashKnown(m.token, TermsFor(s.jobs[j], m.execution, hash)));
  }

  lemma StepIsJobStep(w: World, s: State, a: Action)
    requires Enabled(w, s, a)
    requires a.ReceiveSelection? || a.ReceiveHash? || a.CheckTerms? || a.CheckUnspent? || a.PublishResult?
    ensures Step(w, s, a) == JobStep(w, s, a)
  {
  }

  lemma PassesTerms(w: World, s: State, j: nat, token: Token, terms: LockTerms)
    requires j in s.jobs && s.jobs[j].stage == HashKnown(token, terms) && token.mintUrl == w.mintUrl
    requires Acceptable(token.proofs, terms, w.fee(token.proofs), s.now)
    ensures Step(w, s, CheckTerms(j)) == SetStage(s, j, TermsChecked(token, terms, s.now))
  {
    StepIsJobStep(w, s, CheckTerms(j));
  }

  lemma StartsWork(w: World, s: State, j: nat, token: Token, terms: LockTerms, at: int)
    requires j in s.jobs && s.jobs[j].stage == TermsChecked(token, terms, at) && AllUnspent(s, token)
    ensures Step(w, s, CheckUnspent(j)) == SetStage(s.(log := s.log + [WorkEvent(s, j)]), j, Working(token, terms))
  {
  }

  lemma Publishes(w: World, s: State, j: nat, token: Token, terms: LockTerms)
    requires j in s.jobs && s.jobs[j].stage == Working(token, terms)
    ensures Step(w, s, PublishResult(j))
         == SetStage(s, j, Delivered(token, terms))
              .(relay := s.relay + {ResultNotice(s.jobs[j].provider, s.jobs[j].request.eventId)})
  {
  }

  /** A Provider that knows the hash of an acceptable, unspent token works on it and publishes. */
  lemma WorksAndPublishes(w: World, s: State, j: nat, token: Token, terms: LockTerms)
    requires j in s.jobs && s.jobs[j].stage == HashKnown(token, terms) && token.mintUrl == w.mintUrl
    requires Acceptable(token.proofs, terms, w.fee(token.proofs), s.now) && AllUnspent(s, token)
    ensures IsDelivered(s, Step(w, Step(w, Step(w, s, CheckTerms(j)), CheckUnspent(j)),
        PublishResult(j)), j, token, terms)
  {
    PassesTerms(w, s, j, token, terms);
    var one := SetStage(s, j, TermsChecked(token, terms, s.now));
    StartsWork(w, one, j, token, terms, s.now);
    var two := SetStage(one.(log := s.log + [WorkEvent(one, j)]), j, Working(token, terms));
    Publishes(w, two, j, token, terms);
  }

  /** The job is delivered, its work event is logged, and nothing else but the relay differs. */
  predicate IsDelivered(s: State, r: State, j: nat, token: Token, terms: LockTerms)
    requires j in s.jobs
  {
    && j in r.jobs && r.jobs[j] == s.jobs[j].(stage := Delivered(token, terms))
    && r.oracle == s.oracle && r.issued == s.issued && r.spent == s.spent && r.now == s.now
    && r.log == s.log + [WorkStarted(j, s.jobs[j].provider, s.jobs[j].request, terms, token, s.now, |s.oracle.log|)]
  }

  lemma ExecJobScript(w: World, s: State, j: nat, m: Message, hash: string)
    ensures Exec(w, s, JobScript(j, m, hash))
         == Step(w, Step(w, Step(w, Exec(w, s, [ReceiveSelection(j, m), ReceiveHash(j, hash)]),
                                 CheckTerms(j)), CheckUnspent(j)), PublishResult(j))
  {
    var start := [ReceiveSelection(j, m), ReceiveHash(j, hash)];
    ExecSnoc(w, s, start, CheckTerms(j));
    ExecSnoc(w, s, start + [CheckTerms(j)], CheckUnspent(j));
    ExecSnoc(w, s, start + [CheckTerms(j)] + [CheckUnspent(j)], PublishResult(j));
    assert start + [CheckTerms(j)] + [CheckUnspent(j)] + [PublishResult(j)] == JobScript(j, m, hash);
  }

  /** From such a state the Provider starts work, on that lock, and publishes its result. */
  lemma MatchingJobDelivers(w: World, s: State, j: nat, m: Message, hash: string)
    requires Matches(w, s, j, m, hash)
    ensures IsDelivered(s, Exec(w, s, JobScript(j, m, hash)), j, m.token, TermsFor(s.jobs[j], m.execution, hash))
  {
    var terms := TermsFor(s.jobs[j], m.execution, hash);
    ReachesHash(w, s, j, m, hash);
    ExecJobScript(w, s, j, m, hash);
    WorksAndPublishes(w, SetStage(s, j, HashKnown(m.token, terms)), j, m.token, terms);
  }

  lemma {:induction false} ExecKeepsInv(w: World, s: State, actions: seq<Action>)
    requires Inv(w, s)
    ensures Inv(w, Exec(w, s, actions))
  {
    if actions != [] {
      ExecKeepsInv(w, s, actions[..|actions| - 1]);
      StepKeepsInv(w, Exec(w, s, actions[..|actions| - 1]), actions[|actions| - 1]);
    }
  }

  /** The job is delivered, and redeeming with this preimage adds one swap that pays the price, if `taken`, or none. */
  ghost predicate PaysOnRedeem(
    w: World, s: State, r: State, j: nat, token: Token, terms: LockTerms, preimage: string, readings: seq<Conditions>,
    taken: bool)
  {
    && j in s.jobs && IsDelivered(s, r, j, token, terms) && |readings| == |token.proofs|
    && OnRedeem(w, r, Redeem(j, preimage, readings)).log ==
       if taken
       then r.log + [Swapped(SignedInputs(token, readings, preimage, s.jobs[j].provider), s.now, |s.oracle.log|,
         Some(j), terms.amountSats)]
       else r.log
  }

  lemma DeliveredJobIsPaid(
    w: World, s: State, r: State, j: nat, token: Token, terms: LockTerms, preimage: string, readings: seq<Conditions>)
    requires Inv(w, r) && j in s.jobs && IsDelivered(s, r, j, token, terms) && AllUnspent(s, token)
    requires IsNostrKey(s.jobs[j].provider) && IsNostrKey(s.jobs[j].request.customer)
    requires w.sha(preimage) == Text.Lower(terms.hashHex) && HaveOneReading(token.proofs, readings)
    ensures PaysOnRedeem(w, s, r, j, token, terms, preimage, readings, EqualTags(token.proofs))
  {
    var a := Redeem(j, preimage, readings);
    assert RedeemsDelivered(w, r, a);
    assert NoneSpent(r, token);
    UnspentLockRedeemsIff(w, r, a);
    DeliveredFacts(w, r, j);
  }

  /**
   A matching exchange ends in payment: with a matching selection, an acceptable unspent lock and a preimage of its
   hash, the Provider's steps end with a swap that pays the price it offered, exactly when the proofs carry equal tags.
   */
  lemma MatchingJobIsPaidIff(
    w: World, s: State, j: nat, m: Message, hash: string, preimage: string, readings: seq<Conditions>)
    requires Inv(w, s) && Matches(w, s, j, m, hash)
    requires IsNostrKey(s.jobs[j].provider) && IsNostrKey(s.jobs[j].request.customer)
    requires w.sha(preimage) == Text.Lower(hash) && HaveOneReading(m.token.proofs, readings)
    ensures PaysOnRedeem(w, s, Exec(w, s, JobScript(j, m, hash)), j, m.token, TermsFor(s.jobs[j], m.execution, hash),
        preimage, readings,
                         EqualTags(m.token.proofs))
  {
    MatchingJobDelivers(w, s, j, m, hash);
    ExecKeepsInv(w, s, JobScript(j, m, hash));
    var terms := TermsFor(s.jobs[j], m.execution, hash);
    DeliveredJobIsPaid(w, s, Exec(w, s, JobScript(j, m, hash)), j, m.token, terms, preimage, readings);
  }
}
