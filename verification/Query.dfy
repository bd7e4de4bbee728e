/** Queries: their statuses, the transition tables, and the functions that move a query along. */
module Query {
  import opened Wrappers
  import opened Text

  datatype Status =
    Pending | AwaitingOffers | ProviderSelected | Processing | Verifying | Approved | Rejected | Expired

  datatype Payment = Locked | EscrowLocked | EscrowSwapped | Released | Cancelled

  /** What settles the escrow: the preimage of a hash, or signatures of a FROST group. */
  datatype Settlement = Htlc(hash: string) | Frost(group: string)

  datatype Escrow = Escrow(
    settlement: Settlement,
    customer: string,
    locktime: int,
    provider: Option<string>,
    token: Option<string>,
    verifiedSats: Option<int>,
    reference: Option<string>)

  datatype Offer = Offer(provider: string, sats: Option<int>, eventId: string)

  datatype Attestation = Attestation(oracle: string, passed: bool)

  datatype Record = Record(
    id: string,
    status: Status,
    payment: Payment,
    expiresAt: int,
    lockSats: Option<int>,
    oracleIds: Option<seq<string>>,
    quorum: Option<int>,
    escrow: Option<Escrow>,
    offers: seq<Offer>,
    result: Option<string>,
    submittedAt: Option<int>,
    verdict: Option<bool>,
    assignedOracle: Option<string>,
    attestations: Option<seq<Attestation>>)

  datatype Refusal =
    | BadInput | ShortLocktime | NotEscrow | UseEscrow | WrongStatus | NotExpired | BadOffer | WrongProvider

  const MIN_ESCROW_LOCKTIME_SECS := 600

  // ---- Status classes and tables ----

  predicate Terminal(s: Status) { s.Approved? || s.Rejected? || s.Expired? }

  predicate Open(s: Status) { s.Pending? || s.AwaitingOffers? || s.ProviderSelected? || s.Processing? }

  predicate Expirable(s: Status) { Open(s) || s.Verifying? }

  function SimpleTargets(from: Status): set<Status> {
    match from
    case Pending => {Approved, Rejected, Expired}
    case _ => {}
  }

  function EscrowTargets(from: Status): set<Status> {
    match from
    case AwaitingOffers => {ProviderSelected, Expired}
    case ProviderSelected => {Processing, Expired}
    case Processing => {Verifying, Expired}
    case Verifying => {Approved, Rejected, Expired}
    case _ => {}
  }

  predicate ValidTransition(from: Status, to: Status, isEscrow: bool) {
    to in (if isEscrow then EscrowTargets(from) else SimpleTargets(from))
  }

  /** How far along a status is. */
  function Rank(s: Status): (r: nat)
    ensures r <= 4
  {
    match s
    case Pending => 0
    case AwaitingOffers => 0
    case ProviderSelected => 1
    case Processing => 2
    case Verifying => 3
    case _ => 4
  }

  // ---- Transitions ----

  /** An absent or empty string counts as missing. */
  predicate Present(s: Option<string>) { s.Some? && s.value != "" }

  predicate NonZero(n: Option<int>) { n.Some? && n.value != 0 }

  predicate Blank(s: string) { Trim(s) == "" }

  datatype Options = Options(
    description: string,
    schemaOk: bool,
    ttl: int,
    lockSats: Option<int>,
    oracleIds: Option<seq<string>>,
    quorum: Option<int>,
    escrow: Option<Escrow>)

  function FloorSeconds(ms: int): int { ms / 1000 }

  function Create(id: string, o: Options, now: int): Result<Record, Refusal> {
    if Blank(o.description) || !o.schemaOk then Err(BadInput)
    else if o.escrow.Some? && o.escrow.value.locktime != 0
         && o.escrow.value.locktime - FloorSeconds(now) < MIN_ESCROW_LOCKTIME_SECS then Err(ShortLocktime)
    else Ok(Record(id,
                   if o.escrow.Some? then AwaitingOffers else Pending,
                   if o.escrow.Some? then EscrowLocked else Locked,
                   now + o.ttl, o.lockSats, o.oracleIds, o.quorum, o.escrow, [], None, None, None, None, None))
  }

  function Expire(q: Record, now: int): Result<Record, Refusal> {
    if !Expirable(q.status) then Err(WrongStatus)
    else if q.expiresAt >= now then Err(NotExpired)
    else Ok(q.(status := Expired, payment := Cancelled))
  }

  function Cancel(q: Record): Result<Record, Refusal> {
    if !Open(q.status) then Err(WrongStatus) else Ok(q.(status := Rejected, payment := Cancelled))
  }

  function AddOffer(q: Record, offer: Offer): Result<Record, Refusal> {
    if q.escrow.None? then Err(NotEscrow)
    else if !q.status.AwaitingOffers? then Err(WrongStatus)
    else if Blank(offer.provider) || Blank(offer.eventId) then Err(BadOffer)
    else Ok(q.(offers := q.offers + [offer]))
  }

  /** The escrow fields a selection may set; an absent outer option leaves the field as it was. */
  datatype Updates = Updates(token: Option<string>, verifiedSats: Option<Option<int>>)

  function SelectProvider(q: Record, provider: string, u: Updates): Result<Record, Refusal> {
    if q.escrow.None? then Err(NotEscrow)
    else if !ValidTransition(q.status, ProviderSelected, true) then Err(WrongStatus)
    else
      var e := q.escrow.value;
      Ok(q.(status := ProviderSelected,
            escrow := Some(e.(provider := Some(provider),
                              token := if u.token.Some? then u.token else e.token,
                              verifiedSats := if u.verifiedSats.Some? then u.verifiedSats.value else e.verifiedSats)),
            payment := if Present(u.token) then EscrowSwapped else q.payment))
  }

  function BeginWork(q: Record): Result<Record, Refusal> {
    if q.escrow.None? then Err(NotEscrow)
    else if !ValidTransition(q.status, Processing, true) then Err(WrongStatus)
    else Ok(q.(status := Processing))
  }

  function RecordResult(q: Record, result: string, provider: string, now: int): Result<Record, Refusal> {
    if q.escrow.None? then Err(NotEscrow)
    else if !ValidTransition(q.status, Verifying, true) then Err(WrongStatus)
    else if Present(q.escrow.value.provider) && q.escrow.value.provider.value != provider then Err(WrongProvider)
    else Ok(q.(status := Verifying, result := Some(result), submittedAt := Some(now)))
  }

  function CompleteVerification(q: Record, passed: bool, oracle: Option<string>): Result<Record, Refusal> {
    if q.escrow.None? then Err(NotEscrow)
    else if !ValidTransition(q.status, if passed then Approved else Rejected, true) then Err(WrongStatus)
    else Ok(q.(status := if passed then Approved else Rejected,
               payment := if passed then Released else Cancelled,
               assignedOracle := oracle,
               attestations := None))
  }

  /** The record a verification leaves behind. */
  function Finalize(q: Record, passed: bool, attestations: seq<Attestation>): Record {
    q.(status := if passed then Approved else Rejected,
       payment := if passed then Released else Cancelled,
       verdict := Some(passed),
       assignedOracle := if attestations == [] then None else Some(attestations[0].oracle),
       attestations := if q.quorum.Some? then Some(attestations) else None)
  }

  function SubmitResult(
    q: Record, result: string, passed: bool, attestations: seq<Attestation>, oracle: Option<string>, now: int):
      Result<Record, Refusal> {
    if q.escrow.Some? then Err(UseEscrow)
    else if !q.status.Pending? then Err(WrongStatus)
    else if q.expiresAt < now then Ok(q.(status := Expired, payment := Cancelled))
    else Ok(Finalize(q, passed, attestations).(
              assignedOracle := if attestations == [] then oracle else Some(attestations[0].oracle),
              result := Some(result), submittedAt := Some(now)))
  }

  // ---- What a record always satisfies ----

  /** The status, the payment status and the kind of query agree. */
  predicate Paired(q: Record) {
    && (q.status.Approved? <==> q.payment.Released?)
    && (q.status.Rejected? || q.status.Expired? <==> q.payment.Cancelled?)
    && (q.status.Pending? ==> q.payment.Locked? && q.escrow.None?)
    && (q.status.AwaitingOffers? ==> q.payment.EscrowLocked? && q.escrow.Some?)
    && (q.status.ProviderSelected? || q.status.Processing? || q.status.Verifying? ==>
          (q.payment.EscrowLocked? || q.payment.EscrowSwapped?) && q.escrow.Some?)
  }

  /** The terms fixed at creation. */
  datatype Terms = Terms(
    id: string, expiresAt: int, lockSats: Option<int>, oracleIds: Option<seq<string>>, quorum: Option<int>,
    escrow: Option<(Settlement, string, int)>)

  function TermsOf(q: Record): Terms {
    Terms(q.id, q.expiresAt, q.lockSats, q.oracleIds, q.quorum,
          if q.escrow.Some? then Some((q.escrow.value.settlement, q.escrow.value.customer,
            q.escrow.value.locktime)) else None)
  }

  /** A move the tables list for this kind of query, or a cancellation of an open one. */
  predicate Allowed(from: Status, to: Status, isEscrow: bool) {
    ValidTransition(from, to, isEscrow) || (Open(from) && to.Rejected?)
  }

  lemma AllowedRaisesRank(from: Status, to: Status, isEscrow: bool)
    requires Allowed(from, to, isEscrow)
    ensures Rank(from) < Rank(to)
  {
  }

  /** A proper step of a well-formed record: well-formed again, same terms, an allowed move if the status changed. */
  predicate GoodMove(q: Record, r: Record) {
    && Paired(r)
    && TermsOf(r) == TermsOf(q)
    && (q.status != r.status ==> Allowed(q.status, r.status, q.escrow.Some?))
  }

  lemma OpenMovesAreGood(q: Record, now: int, offer: Offer, provider: string, u: Updates, result: string)
    requires Paired(q)
    ensures AddOffer(q, offer).Ok? ==> GoodMove(q, AddOffer(q, offer).value)
    ensures SelectProvider(q, provider, u).Ok? ==> GoodMove(q, SelectProvider(q, provider, u).value)
    ensures BeginWork(q).Ok? ==> GoodMove(q, BeginWork(q).value)
    ensures RecordResult(q, result, provider, now).Ok? ==> GoodMove(q, RecordResult(q, result, provider, now).value)
  {
  }

  lemma FinalMovesAreGood(
    q: Record, now: int, result: string, passed: bool, attestations: seq<Attestation>, oracle: Option<string>)
    requires Paired(q)
    ensures CompleteVerification(q, passed, oracle).Ok? ==> GoodMove(q, CompleteVerification(q, passed, oracle).value)
    ensures SubmitResult(q, result, passed, attestations, oracle, now).Ok? ==>
      GoodMove(q, SubmitResult(q, result, passed, attestations, oracle, now).value)
    ensures q.status.Pending? || q.status.Verifying? ==> GoodMove(q, Finalize(q, passed, attestations))
  {
  }

  /** Every transition function makes only good moves. */
  lemma TransitionsAreGood(
    q: Record, now: int, offer: Offer, provider: string, u: Updates, result: string, passed: bool,
    attestations: seq<Attestation>, oracle: Option<string>)
    requires Paired(q)
    ensures Expire(q, now).Ok? ==> GoodMove(q, Expire(q, now).value)
    ensures Cancel(q).Ok? ==> GoodMove(q, Cancel(q).value)
    ensures AddOffer(q, offer).Ok? ==> GoodMove(q, AddOffer(q, offer).value)
    ensures SelectProvider(q, provider, u).Ok? ==> GoodMove(q, SelectProvider(q, provider, u).value)
    ensures BeginWork(q).Ok? ==> GoodMove(q, BeginWork(q).value)
    ensures RecordResult(q, result, provider, now).Ok? ==> GoodMove(q, RecordResult(q, result, provider, now).value)
    ensures CompleteVerification(q, passed, oracle).Ok? ==> GoodMove(q, CompleteVerification(q, passed, oracle).value)
    ensures SubmitResult(q, result, passed, attestations, oracle, now).Ok? ==>
      GoodMove(q, SubmitResult(q, result, passed, attestations, oracle, now).value)
    ensures q.status.Pending? || q.status.Verifying? ==> GoodMove(q, Finalize(q, passed, attestations))
  {
    OpenMovesAreGood(q, now, offer, provider, u, result);
    FinalMovesAreGood(q, now, result, passed, attestations, oracle);
  }

  /** A query starts unsettled, in the open status and the lock status of its kind, with the terms it was given. */
  lemma CreatedIsPaired(id: string, o: Options, now: int)
    requires Create(id, o, now).Ok?
    ensures var q := Create(id, o, now).value;
      Paired(q) && Open(q.status) && q.id == id && q.expiresAt == now + o.ttl && q.escrow == o.escrow
  {
  }
}
