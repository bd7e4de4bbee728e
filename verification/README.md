# Anchr: a model of the paid-request protocol

Anchr lets a Customer pay a Provider for work that an Oracle judges. The Customer locks ecash under a hash, the Provider
works, and the Oracle releases the unlock secret only after verification. This project models the parts of Anchr whose
correctness depends on several steps, calls or programs working together, and proves what they promise together.

Check everything with `dafny verify dfyconfig.toml` (Dafny 4.11).

## What is modelled

**Exchange and payment lock.** `SpendingConditions` holds Cashu secrets and the spending rules of NUT-11 (pay to public
key, with the SIG_ALL rule on swaps) and NUT-14 (hash locks). Signatures are symbolic: a witness is a preimage and a set of
signing keys. `PaymentLock` is the Provider's check of a token, `Offers` the Customer's choice, `RedeemSwap` the decision
after a failed swap call. `RedeemRuns` runs any number of redeem calls on the same proofs against a mint with atomic swaps,
state checks (NUT-07) and restore (NUT-09), where every request and reply can be lost or late; `RedeemAmounts` says what a
success pays. `OracleDaemon` is the Oracle's relay service, split at its awaits; `OracleRetention`, `OracleRetry` and
`OracleHashes` are what it keeps, what it can send again and which hash it answers. `Exchange` runs Customers, Providers,
the Oracle and the mint together over a relay that may drop, repeat and reorder messages; `ExchangeCustomers` follows the
Customers that use the default offer selector, and `Amounts` joins offers, lock check and redeem.

**Threshold signing.** `FrostMessages` derives and admits messages, `FrostSigners` runs any number of signer nodes at once,
`FrostCoordinator` is the signing session, `FrostRelease` the per-proof release and the lock it opens. Threshold signing is
symbolic: a share names its signer and message, nobody but the signer makes it, and shares aggregate to a group signature
over a message only when all of them are over that message.

**Query service.** `Query` holds the records, the transition tables and the transition functions. `QueryMachine` is the
service with every call split at its awaits: a suspended call keeps the record it read and writes back what it computed
from it. `QuerySafety` proves what every interleaved run keeps, `QueryFinality` when a record is final, `QueryArtifacts` what
a success carries, `QueryReveals` when a preimage is returned twice, `QuerySequential` what runs without overlapping calls keep, and `QueryRuns` gives runs from the empty
service in which overlapping calls lead where sequential ones do not.
`QueryService` is the object with one call at a time; its fields are always those of a sequential run of the machine, so
the theorems about sequential runs are theorems about the object. `Quorum` is the oracle registry and the verdict.

**Proof replay and bytes.** `ReplayGuard` and `TlsnReplay` are the bounded replay guard and the freshness check,
`TlsnOverlap` interleaved validations.
`Base64`, `Redaction`, `Disclosure` and `ChunkedBody` are the byte-level code of the TLSNotary programs.

Clocks, random ids, hashes, oracle verdicts, mint answers and replies of ports are inputs of the steps. Theorems about runs
quantify over all of them.

## Where code and documentation differ

- `EscrowSubmitOutcome` is documented as carrying exactly one of preimage and signature on success
  (packages/sdk/src/requests/domain/types.ts:119-126). The code can return neither
  (packages/sdk/src/requests/application/escrow-flow-methods.ts:249-255); `SuccessWithoutSettlement` is such a run and
  `SuccessCarriesOneIff` the exact condition.
- Terminal statuses are documented as allowing no further transition
  (packages/sdk/src/requests/domain/query-transitions.ts:16-17). With overlapping calls they do: a suspended selection, an
  escrow submission or a simple submission still writes what it computed from the record it read. `TerminalIsFinalIff` gives
  the exact condition; `CancelledQueryIsSelected`, `CancelledQueryIsReleased` and `ExpiredQueryIsReleased` are runs.
- The transition table for escrow queries does not list cancellation, which the code allows from every open status.
- One hash per query id is documented as idempotent (packages/sdk/src/payments/cashu/preimage-store.ts:76-80). All answers
  to relay and host agree exactly when no request for the query starts while a preimage is being drawn for it, and none
  after its delivery settled except over the relay to a responder that already answered it (`OneHashPerQueryIff`). Relay
  answers alone agree exactly when each relayed request finds the query answered, or finds every relayed request under way
  carrying the recorded hash, in particular when relayed requests do not overlap (`OneRelayHashIff`).
- A redeem result is marked safe to retry when its inputs are unspent at the state check
  (packages/sdk/src/payments/cashu/redeem-swap.ts:143-151). The swap can still happen afterwards if its request was under
  way at that moment, and only then (`RetrySafeIsFinalIff`, `LateSwap`); even so at most one swap ever happens.
- The Provider's lock check accepts proofs one by one. A mint takes them in one swap only when their tags are equal
  (`AcceptedShareConditionIff`); `MixedTokenAcceptedNotRedeemable` is an accepted token it refuses.
- The check that a secret requires the group key accepts locks that two other keys can spend; `GroupNeededIff` gives the
  exact condition.
- The replay guard says its retention must be at least the largest maximum age. One millisecond less suffices, and that
  bound is exact.

## Model

| member | source | states |
|---|---|---|
| `PaymentLock.RejectDuplicateProofs` | packages/sdk/src/adapters/cashu.ts:284-294 | the scan accepts a proof list exactly when no two proofs share a secret |
| `PaymentLock.ValidateProofs` | packages/sdk/src/adapters/cashu.ts:296-367 | the token is accepted exactly when it is acceptable (distinct secrets, right net amount, remaining locktime, every secret well locked), and a malformed or wrongly locked proof is reported as the first failing one |
| `PaymentLock.AcceptedSecretMeaning` | packages/sdk/src/adapters/cashu.ts:204-269 | for every mint reading of unique tags, every witness and every time: an accepted proof is spendable exactly with the preimage and the Provider signature, or past the locktime with the Customer signature |
| `PaymentLock.BuiltLockAcceptedIff` | packages/sdk/src/payments/cashu/cashu-htlc-options.ts:75-87 | a lock built from the same terms passes the check exactly when the hash is lower case and no key already looks parity-prefixed while the library adds a prefix |
| `PaymentLock.BuiltTokenAccepted` | packages/sdk/src/payments/cashu/cashu-htlc-options.ts:75-87 | built proofs with a lower-case hash, unprefixed keys and the right total are accepted together, whatever their spellings |
| `PaymentLock.AcceptedShareConditionIff` | packages/sdk/src/adapters/cashu.ts:357-362 | the proofs of an accepted token can go into one SIG_ALL swap exactly when their tags are equal |
| `PaymentLock.BuiltTokenEqualTagsIff` | packages/sdk/src/payments/cashu/cashu-htlc-options.ts:75-87 | a token built from one set of terms has equal tags exactly when all its keys are spelled alike |
| `PaymentLock.MixedTokenAcceptedNotRedeemable` | packages/sdk/src/adapters/cashu.ts:296-367 | two built proofs in different spellings pass the check together and no single swap takes both |
| `PaymentLock.RepeatedTagDefeatsTheCheck` | packages/sdk/src/adapters/cashu.ts:210-223 | with a repeated "pubkeys" tag the check accepts a lock that a mint reading the second tag lets another key take: uniqueness of tags is needed |
| `RedeemSwap.RecoverInterruptedRedeem` | packages/sdk/src/payments/cashu/redeem-swap.ts:113-209 | the recovery with its lookup table and growing list computes the recovery decision for every mint answer |
| `RedeemSwap.ThrownMatchesResult` | packages/sdk/src/adapters/cashu.ts:519-557 | for every recovery the thrown class is Uncertain exactly when the failed result is uncertain |
| `RedeemRuns.AtMostOneSwap` | packages/sdk/src/payments/cashu/redeem-swap.ts:64-111 | in every run of redeem calls with lost and late requests and replies and other clients: at most one request is ever taken, at most one call succeeds, and a success belongs to the taken request with coins only on its own outputs in their own amounts |
| `RedeemRuns.AfterTheSwap` | packages/sdk/src/payments/cashu/redeem-swap.ts:113-209 | once a request was taken, every call still open or started later ends without inviting a retry: the own call in success or uncertain, any other never in success and always uncertain, where states can be checked |
| `RedeemRuns.RetrySafeIsFinalIff` | packages/sdk/src/payments/cashu/redeem-swap.ts:143-151 | a call that ends retry-safe will never be swapped, in any continuation, exactly when its request was no longer under way at the state check |
| `RedeemRuns.LateSwap` | packages/sdk/src/payments/cashu/redeem-swap.ts:124-151 | from the start: a call gives up, is told its inputs are unspent and ends retry-safe, and its request is taken afterwards |
| `RedeemAmounts.SuccessPaysInFullIff` | packages/sdk/src/payments/cashu/redeem-swap.ts:180-208 | in every run a success holds exactly the coins of its outputs if and only if they came with the reply or the restore answered each output exactly once, in any order; it is then paid the input total minus the fee, and with no output answered twice only then |
| `RedeemAmounts.RightAmountWrongCoins` | packages/sdk/src/payments/cashu/redeem-swap.ts:183-191 | a restore that answers one of two equal outputs twice gives the right amount without the right coins |
| `Offers.CollectOffers` | packages/sdk/src/customer.ts:382-415 | the handler over the events of a window collects exactly the qualifying offers, in order, and counts the readable ones |
| `Offers.CheapestIsLeastAndEarliest` | packages/sdk/src/customer.ts:65-68 | the default selector returns the least amount, the earliest on ties |
| `Offers.CheapestIsFirstEvent` | packages/sdk/src/customer.ts:65-68 | among the events of the window the choice is the first of those with the least valid amount |
| `Offers.QualifyingWithinBudget` | packages/sdk/src/customer.ts:70-74 | every collected offer is positive, within the budget, and comes from an event of the window |
| `Offers.QualifyingKeepsAll` | packages/sdk/src/customer.ts:389-405 | no qualifying event is dropped |
| `Offers.PublishedSelectionIsLeastOffer` | packages/sdk/src/customer.ts:416-451 | a published selection is the least valid offer of the window, the earliest event of that amount, within budget, and its lock nets exactly that amount |
| `Offers.DefaultSelectorNeverMisses` | packages/sdk/src/customer.ts:416-425 | no selection is made exactly when no event qualifies |
| `Amounts.RedeemedAmountIsLeastOffer` | packages/sdk/src/provider.ts:330-447 | in every run of the exchange and of the redeem calls on the job's token: for a Customer with the default selector a success paid in full pays the bound amount, which is the least qualifying offer of the Customer's window, the earliest of that amount, published by that Provider as its one offer for the job, within the budget |
| `OracleDaemon.EveryRunKeepsInv` | packages/sdk/src/adapters/nostr/oracle-service.ts:149-482 | every interleaving of hash requests, watches, selections, results, host calls with and without FROST, verifications, deliveries and deletions keeps the daemon invariant: each logged event is justified by earlier ones |
| `OracleDaemon.ReleaseSafety` | packages/sdk/src/adapters/nostr/oracle-service.ts:159-285 | in every run a preimage is sent only after a passing verification for that query and Provider, never for a quorum query, as the commitment issued for that query; a relay-driven one answers a result taken while the watch in place was for that request event with that Provider selected last, and whose payload names that query and event; deletion and forgetting only after a relay accepted a release, unwatching only after a terminal outcome |
| `OracleRetention.KeptUntilAccepted` | packages/sdk/src/adapters/nostr/oracle-service.ts:225-285 | in every run the daemon holds a drawn preimage exactly until its deletion, and deletes only one that some relay accepted |
| `OracleRetry.ReleaseIsKeptIff` | packages/sdk/src/adapters/nostr/oracle-service.ts:225-272 | in every run a sent release, with none accepted for the query, is still what the daemon would fetch exactly when its hash is the one issued last for the query |
| `OracleRetry.ReleaseIsKept` | packages/sdk/src/adapters/nostr/oracle-service.ts:264-272 | in every run whose requests for the query start cleanly, an unaccepted release keeps its preimage and hash mapping |
| `OracleRetry.WatchStands` | packages/sdk/src/adapters/nostr/oracle-service.ts:393-398 | until a call for the query ends, the watch stays as the host left it |
| `OracleRetry.RelayRetrySendsTheSameRelease` | packages/sdk/src/adapters/nostr/oracle-service.ts:264-269 | after the last delivery attempt failed, the same result event of the recorded Provider passes through the kept watch and sends the very same release |
| `OracleRetry.HostRetrySendsTheSameRelease` | packages/sdk/src/adapters/nostr/oracle-service.ts:448-457 | the host's repeated call sends the very same release until a relay accepted one for the query |
| `OracleHashes.OneHashPerQueryIff` | packages/sdk/src/payments/cashu/preimage-store.ts:76-91 | in every run relay and host are told one hash for a query, whatever requests are still to return, exactly when every request for it starts with no draw under way and, after settlement, only over the relay to a responder that answered before |
| `OracleHashes.OneRelayHashIff` | packages/sdk/src/adapters/nostr/hash-responder.ts:32-78 | in every run the relay answers for a query are one hash exactly when each relayed request finds it answered or finds all relayed requests under way carrying the recorded hash, whatever the host asks |
| `OracleHashes.SettledHostRequestDiffers` | packages/sdk/src/adapters/nostr/oracle-service.ts:400-403 | once the delivery settled, a host request is answered with a new hash, different from every earlier answer |
| `OracleHashes.OverlapSplitsTheHash` | packages/sdk/src/adapters/nostr/hash-responder.ts:32-78 | from any state without a hash for a query, two overlapping requests are answered with different hashes |
| `Exchange.EveryRunKeepsInv` | packages/sdk/src/provider.ts:298-464 | every run of Customers, Providers, Oracle and mint over a relay that loses, repeats and reorders keeps the exchange invariant |
| `Exchange.ProvidersWorkOnlyWhenCovered` | packages/sdk/src/provider.ts:358-387 | every Provider that starts work checked an unspent lock on the Oracle's hash, its own key and enough remaining time, for exactly the amount of the one offer it made for that job and published on the relay |
| `Exchange.EachLockSpentAtMostOnce` | packages/sdk/src/adapters/cashu.ts:673-756 | no secret is spent twice, in one swap or in two |
| `Exchange.LockIsRedeemedOnlyAfterRelease` | packages/sdk/src/provider.ts:376-447 | once work started on a lock it is spent later or never: by the Provider's own redeem after the Oracle sent the preimage of that hash following a passing verification for that query, or by the Customer past the locktime |
| `Exchange.ProviderIsPaidThePrice` | packages/sdk/src/provider.ts:330-447 | a Provider's redeem pays exactly the amount of the one offer that Provider made for the job and published on the relay, within the request's budget |
| `Exchange.UnspentLockRedeemsIff` | packages/sdk/src/adapters/cashu.ts:673-756 | a delivered job redeems with any preimage of the lock's hash, at any time, for the amount the job was offered at, exactly when none of its proofs was spent and all carry equal tags |
| `Exchange.MatchingJobIsPaidIff` | packages/sdk/src/provider.ts:358-447 | a matching selection, the Oracle's hash, an acceptable unspent token and a preimage of its hash take the Provider through work and result to a swap that pays the price, exactly when the proofs carry equal tags |
| `ExchangeCustomers.WorkIsForTheLeastOffer` | packages/sdk/src/customer.ts:380-490 | in every run the amount a Provider works for on the request of a Customer with the default selector is what that Customer's lock binds, the job's own published offer, and the least qualifying offer of the Customer's window, the earliest of that amount, among offers their Providers published |
| `ExchangeCustomers.ProviderIsPaidTheLeastOffer` | packages/sdk/src/customer.ts:416-451 | in every run a Provider's redeem for such a Customer pays the least qualifying offer of the window, the earliest of that amount, which that Provider published as its one offer for the job, within the budget |
| `FrostMessages.SecretRequiresGroup` | packages/sdk/src/payments/frost/signing-message.ts:49-73 | the loop over tags accepts exactly the P2PK secrets whose last n_sigs is "2" and whose lock keys name the group |
| `FrostMessages.AllowedMeaning` | packages/sdk/src/adapters/oracle-service/frost-signer-routes.ts:148-165 | an allowed message is exactly the requirement's own message or the digest of a proof secret of the token whose hash the requirement carries and all of whose proofs name the group; proof messages are never another requirement's message |
| `FrostMessages.RequirementPinsToken` | packages/sdk/src/payments/frost/signing-message.ts:11-24 | one requirement allows proof messages of a single encoded token |
| `FrostMessages.GroupNeededIff` | packages/sdk/src/payments/frost/signing-message.ts:26-43 | a lock that passes the check needs the group's signature for every key spend exactly when fewer than two other keys are named |
| `FrostMessages.BystanderLockPasses` | packages/sdk/src/payments/frost/signing-message.ts:49-73 | a lock with two further keys passes the check, so the check alone does not make the group necessary |
| `FrostSigners.NonceSignsOnce` | packages/sdk/src/adapters/oracle-service/frost-signer-routes.ts:52-146 | in every interleaved run of any number of nodes a nonce yields at most one signature share |
| `FrostSigners.ShareIsBoundToVerification` | packages/sdk/src/adapters/oracle-service/frost-signer-routes.ts:67-146 | every share is over the message of the same node's round 1, whose requirement that node verified earlier; on the routes that message is allowed by the requirement |
| `FrostSigners.CommitIsVerified` | packages/sdk/src/payments/frost/frost-signer.ts:173-239 | a commitment follows the node's own passing verification of the requirement it was given |
| `FrostCoordinator.IdentifierIsInjective` | packages/sdk/src/payments/frost/frost-signing-coordinator.ts:223-226 | the padded hexadecimal identifier tells all indices apart |
| `FrostCoordinator.IdentifiersAreInjective` | packages/sdk/src/payments/frost/frost-signing-coordinator.ts:223-226 | the identifier used by every session meets the injectivity that the theorems about sessions ask for |
| `FrostCoordinator.CollectCommitments` | packages/sdk/src/payments/frost/frost-signing-coordinator.ts:70-117 | round 1 stops at the threshold; the table's keys are the identifiers of this node and of the joined peers |
| `FrostCoordinator.CollectShares` | packages/sdk/src/payments/frost/frost-signing-coordinator.ts:147-181 | round 2 fills the table exactly with this node's share and those of the joined peers that delivered, each under its own identifier |
| `FrostCoordinator.CoordinateSigning` | packages/sdk/src/payments/frost/frost-signing-coordinator.ts:48-217 | the session as run computes the specified outcome for every pattern of replies |
| `FrostCoordinator.SignatureHasExactlyThreshold` | packages/sdk/src/payments/frost/frost-signing-coordinator.ts:48-217 | with threshold at least two and distinct peers a signature means commitments, shares and reported participants are the same exactly threshold distinct signers |
| `FrostCoordinator.ParticipantDelivered` | packages/sdk/src/payments/frost/frost-signing-coordinator.ts:147-190 | every other participant of a signature is a configured peer that delivered its own share over the message |
| `FrostCoordinator.EveryParticipantVerified` | packages/sdk/src/payments/frost/frost-signing-coordinator.ts:77-181 | every other participant of a signature that runs the signer software made its share over the very message after verifying a requirement itself, in every run of the signer nodes; on the routes that requirement allows the message |
| `FrostCoordinator.ThresholdOneOverReports` | packages/sdk/src/payments/frost/frost-signing-coordinator.ts:209-216 | with threshold one a peer without a share is still reported as participating |
| `FrostRelease.CollectSignatures` | packages/sdk/src/payments/frost/frost-signature-adapter.ts:28-51 | one session per message in order, all or none: a result is given exactly when every session signs, and is then the group's signature over each message in turn |
| `FrostRelease.DeliveredSignaturesRestOnVerifiedShares` | packages/sdk/src/adapters/nostr/oracle-service.ts:312-352 | what is delivered for a token is one group signature per proof over that proof's own secret, made by exactly threshold distinct signers, and every other signer that runs the signer software shared over that secret after its own verification |
| `FrostRelease.AppendAddsOwnSignature` | packages/sdk/src/payments/cashu/frost-escrow-provider.ts:281-303 | appending succeeds exactly on matching counts and gives each proof its earlier signatures plus its own |
| `FrostRelease.FrostLockMeaning` | packages/sdk/src/payments/cashu/frost-escrow-provider.ts:39-59 | a FROST lock is spendable exactly by Provider and group together, or by the Customer past the locktime |
| `FrostRelease.AppendedTokenIsSpendable` | packages/sdk/src/payments/cashu/frost-escrow-provider.ts:242-303 | Provider-signed proofs with the delivered group signatures appended are each spendable at any time |
| `FrostRelease.MisalignedSignatureDoesNotUnlock` | packages/sdk/src/payments/cashu/frost-escrow-provider.ts:281-303 | a group signature over another secret leaves the proof locked until the locktime |
| `FrostRelease.BuiltLockIsFrostLock` | packages/sdk/src/payments/cashu/frost-escrow-provider.ts:39-59 | the options built for a lock give a FROST lock whenever there is a refund key, and no lock otherwise |
| `Quorum.Registry.Register` | packages/sdk/src/adapters/oracle-client/registry.ts:15-17 | registering again keeps the oracle's place |
| `Quorum.Registry.Resolve` | packages/sdk/src/adapters/oracle-client/registry.ts:18-27 | an oracle is returned exactly when it is registered and designated: requested and acceptable, or not requested and the only acceptable one |
| `Quorum.Registry.ResolveMultiple` | packages/sdk/src/adapters/oracle-client/registry.ts:28-43 | the bounded loop returns the first registered ids of the acceptable list, or of the registry without one |
| `Quorum.CountApprovals` | packages/sdk/src/requests/application/query-verification.ts:143-144 | the count equals the number of approving answers |
| `Quorum.QuorumPassIff` | packages/sdk/src/requests/application/query-verification.ts:103-159 | over a duplicate-free list a quorum query passes exactly when a panel was found and at least min_approvals distinct, registered, acceptable oracles approved |
| `Quorum.QuorumSoundIff` | packages/sdk/src/requests/application/query-verification.ts:138-144 | for any resolved panel: a pass always means min distinct approvers exactly when the panel has no duplicate, needs at most one approval, or is too small to pass |
| `Quorum.DuplicateDefeatsQuorum` | packages/sdk/src/adapters/oracle-client/registry.ts:30-35 | with an oracle listed twice, fewer than min oracles can make a panel pass |
| `Query.TransitionsAreGood` | packages/sdk/src/requests/domain/query-aggregate.ts:101-325 | every transition function keeps status and payment status paired, keeps the terms, and moves only along the table or by cancelling an open query |
| `Query.CreatedIsPaired` | packages/sdk/src/requests/domain/query-aggregate.ts:49-98 | a created query is open, paired, and has the terms it was given |
| `Query.AllowedRaisesRank` | packages/sdk/src/requests/domain/query-transitions.ts:4-59 | every listed move and every cancellation raises the rank of the status |
| `QuerySafety.EveryRunKeepsInv` | packages/sdk/src/requests/application/escrow-flow-methods.ts:38-256 | every interleaving of service calls split at their awaits keeps the invariant over store, suspended calls and log |
| `QuerySafety.StoredRecordsAreConsistent` | packages/sdk/src/requests/domain/query-aggregate.ts:76-95 | in every interleaved run: approved iff released, rejected or expired iff cancelled, each open status has its lock status, non-escrow queries never enter escrow statuses, and the terms are those of the one creation of the id |
| `QuerySafety.ReleaseSafety` | packages/sdk/src/requests/application/escrow-flow-methods.ts:178-256 | in every interleaved run: preimage and signatures never both, none on failure; success rests on the one passing verification of that call, whose submitter an earlier selection admitted; the preimage was issued for the hash fixed at creation |
| `QuerySafety.SuccessHasQuorum` | packages/sdk/src/requests/application/query-verification.ts:41-159 | behind a success of a quorum query with a duplicate-free oracle list there are at least min_approvals distinct approvers, all on the list |
| `QueryFinality.TerminalIsFinalIff` | packages/sdk/src/requests/application/escrow-flow-methods.ts:59-256 | in every reachable state a terminal status never changes in any continuation exactly when no selection of that query is suspended and no submission whose panel can still decide otherwise |
| `QueryFinality.UnwrittenRecordIsFinal` | packages/sdk/src/requests/application/query-lifecycle-methods.ts:59-134 | in every run a terminal record that no suspended call is about to write stays as it is in every continuation until it is deleted |
| `QueryRuns.CancelledQueryIsSelected` | packages/sdk/src/requests/application/escrow-flow-methods.ts:118-121 | any query whose selection has something to check can be cancelled while the check is awaited and then still becomes provider_selected |
| `QueryRuns.CancelledQueryIsReleased` | packages/sdk/src/requests/application/query-lifecycle-methods.ts:75-99 | a query without escrow, cancelled while its result is judged, becomes approved and released |
| `QueryRuns.ExpiredQueryIsReleased` | packages/sdk/src/requests/application/escrow-flow-methods.ts:187-213 | an escrow query that expires while its result is judged becomes approved and released |
| `QueryRuns.SuccessWithoutSettlement` | packages/sdk/src/requests/application/escrow-flow-methods.ts:249-255 | a run from the empty service whose success carries neither preimage nor signature |
| `QueryArtifacts.SuccessCarriesOneIff` | packages/sdk/src/requests/application/escrow-flow-methods.ts:178-256 | in every run a success carries a preimage exactly with a hash, the preimage port and a non-empty preimage still stored when read, signatures exactly with the signature port and a reply, and so exactly one of them exactly when one of these holds |
| `QuerySequential.StatusChangesAreAllowed` | packages/sdk/src/requests/domain/query-transitions.ts:4-59 | in sequential runs every status change is in the table of the query's kind or cancels an open query, and raises the rank |
| `QuerySequential.AtMostFourChanges` | packages/sdk/src/requests/domain/query-transitions.ts:4-24 | in sequential runs a query changes status at most four times |
| `QuerySequential.TerminalRecordsNeverChange` | packages/sdk/src/requests/application/query-lifecycle-methods.ts:59-134 | in sequential runs a terminal record stays as it is until it is deleted |
| `QuerySequential.PreimageReturnedAtMostOnce` | packages/sdk/src/requests/application/verification-orchestration.ts:43-55 | in sequential runs the preimage of a hash is returned at most once |
| `QueryReveals.ReturnedTwiceIffOverlap` | packages/sdk/src/requests/application/verification-orchestration.ts:43-55 | in every interleaved run the preimage of a hash is returned twice if and only if some call found it while another call that had found it had not returned yet, and both returned |
| `QueryRuns.OverlappingReadsReturnTwice` | packages/sdk/src/requests/application/verification-orchestration.ts:48-53 | from the empty service, two queries created with one hash whose submissions overlap both return its preimage |
| `QueryService.Service.CreateQuery` | packages/sdk/src/requests/application/query-lifecycle-methods.ts:24-46 | creation stores the new record or refuses; the object stays a sequential run of the machine |
| `QueryService.Service.IssueHash` | packages/sdk/src/payments/cashu/preimage-store.ts:44-53 | a new preimage is stored under its hash and nothing else changes |
| `QueryService.Service.CancelQuery` | packages/sdk/src/requests/application/query-lifecycle-methods.ts:107-118 | succeeds exactly on a stored open query; the new state is that of the machine after the cancellation |
| `QueryService.Service.Transition` | packages/sdk/src/requests/application/escrow-flow-methods.ts:38-176 | offers, start of work, results and completions: succeeds exactly when the domain move does; the new state is that of the machine |
| `QueryService.Service.ExpireQueries` | packages/sdk/src/requests/application/query-lifecycle-methods.ts:120-134 | exactly the expirable records past their deadline expire, all others stay, and the count is theirs |
| `QueryService.Service.PurgeExpired` | packages/sdk/src/requests/application/query-lifecycle-methods.ts:136-145 | exactly the expired records are deleted, and each is returned once |
| `QueryService.Service.SubmitQueryResult` | packages/sdk/src/requests/application/query-lifecycle-methods.ts:48-105 | the call is the machine's start and verdict steps; it succeeds exactly on a stored, pending, unexpired query whose panel passes, and then leaves it approved with the result |
| `QueryService.Service.SelectProviderFor` | packages/sdk/src/requests/application/escrow-flow-methods.ts:52-122 | the call is the machine's start, amount and lock steps; it succeeds exactly when the selection is not refused and the checks it makes are answered well, and then leaves the query with that provider; failure changes nothing |
| `QueryService.Service.TakeArtifact` | packages/sdk/src/requests/application/verification-orchestration.ts:43-55 | at most one artifact is returned, each exactly under its own condition; a returned preimage is gone and all others are kept |
| `QueryService.Service.SubmitEscrowResult` | packages/sdk/src/requests/application/escrow-flow-methods.ts:178-256 | the call is the machine's start, verdict and settlement steps, and returns the outcome the machine logs |
| `ReplayGuard.Guard.Evict` | packages/sdk/src/proofs/replay-guard.ts:39-50 | the two loops drop the old front and then the excess |
| `ReplayGuard.Guard.Has` | packages/sdk/src/proofs/replay-guard.ts:53-56 | evicts, then answers whether the key is held |
| `ReplayGuard.Guard.Add` | packages/sdk/src/proofs/replay-guard.ts:57-60 | sets the key, in place if held, and evicts |
| `ReplayGuard.GuardRefinesHistory` | packages/sdk/src/proofs/replay-guard.ts:37-60 | after every orderly run the guard knows a key exactly when it is among the last maxEntries additions and was added no earlier than now minus the retention |
| `ReplayGuard.SettingAgainKeepsStaleEntries` | packages/sdk/src/proofs/replay-guard.ts:57-60 | setting a held key again lets an older entry behind it outlive the retention: adding only absent keys is needed |
| `TlsnReplay.ValidateTlsn` | packages/sdk/src/proofs/tlsn-validation.ts:215-366 | replay check, verifier, freshness and marking, as a step of the guard and a verdict |
| `TlsnReplay.PassesAtMostOnce` | packages/sdk/src/proofs/tlsn-validation.ts:308-349 | in sequential runs with a clock that never runs back, covered ages and fewer later additions than the cap, one presentation passes at most once |
| `TlsnReplay.PassesOnceIff` | packages/sdk/src/proofs/tlsn-validation.ts:222-241 | that guarantee holds for all runs with a given maximum age exactly when the age in milliseconds is at most the retention plus one |
| `TlsnReplay.OverlappingValidationsBothPass` | packages/sdk/src/proofs/tlsn-validation.ts:226-241 | two overlapping validations of one fresh presentation both pass |
| `TlsnOverlap.BothPassIffOverlap` | packages/sdk/src/proofs/tlsn-validation.ts:226-349 | in every interleaved run with covered ages and room for every mark, two validations of one presentation that pass all other checks, with no third mark before they ask, both pass exactly when each asks before the other marks |
| `TlsnOverlap.MarkedBeforeAskFails` | packages/sdk/src/proofs/tlsn-validation.ts:226-241 | in every such run a validation that asks after a passing one marked the presentation does not pass |
| `Base64.Base64Encode` | crates/tlsn-server/src/main.rs:580-594 | the loop over groups of three computes the encoding |
| `Base64.EncodedLength` | crates/tlsn-prover/src/main.rs:604-626 | four characters for every three bytes begun |
| `Base64.Base64Decode` | crates/tlsn-prover/src/main.rs:293-314 | the filter and the loop over groups of four compute the decoding, for any text |
| `Base64.RoundTrip` | crates/tlsn-prover/src/main.rs:293-314 | decoding what either program encoded returns every byte sequence |
| `Base64.LineBreaksDoNotMatter` | crates/tlsn-prover/src/main.rs:301-301 | a line break anywhere in the text changes nothing |
| `Redaction.SliceableIff` | crates/tlsn-prover/src/main.rs:870-879 | taking the header section fails exactly when the first line end already starts the blank line |
| `Redaction.FindHeaderValueRanges` | crates/tlsn-prover/src/main.rs:860-901 | the search for line ends and the loop over lines compute the redacted ranges, or fail to slice |
| `Redaction.LinesAreHeaderLines` | crates/tlsn-prover/src/main.rs:882-882 | splitting finds exactly the header lines of the section |
| `Redaction.RangesMean` | crates/tlsn-prover/src/main.rs:882-898 | the ranges cover exactly the value bytes of the named headers |
| `Disclosure.SubtractRanges` | crates/tlsn-prover/src/main.rs:904-927 | the loop with its cursor computes the complement of the sorted ranges |
| `Disclosure.SubtractIsComplement` | crates/tlsn-prover/src/main.rs:904-927 | subtracting any ranges within the text covers exactly the bytes outside them, in sorted disjoint ranges |
| `Disclosure.BuildRevealed` | crates/tlsn-prover/src/main.rs:930-950 | the revealed ranges of a presentation, for every request |
| `Disclosure.DisclosureIsExact` | crates/tlsn-prover/src/main.rs:860-950 | redacted ranges are sorted, disjoint, in bounds and cover exactly the values of the named headers; revealed ranges cover exactly all other bytes |
| `ChunkedBody.DecodeChunkedBody` | crates/tlsn-verifier/src/main.rs:135-165 | the loop computes the decoding of every input and ends, since the remaining text shrinks |
| `ChunkedBody.DecodeInvertsEncode` | crates/tlsn-verifier/src/main.rs:139-162 | any spelling of the sizes and any trailer: decoding returns the concatenated data of the chunks |
| `ChunkedBody.ChunkedRoundTrip` | crates/tlsn-verifier/src/main.rs:135-165 | for every list of non-empty parts, decoding their chunked coding gives their concatenation |
| `ChunkedBody.MissingLastChunk` | crates/tlsn-verifier/src/main.rs:146-159 | without the last chunk the data is refused if its line end is there and accepted if that is missing too |

## Left out

- Cryptography and foreign libraries (cashu-ts, nostr-tools, NIP-44, the FROST crate, tlsn, c2patool, gpg): symbolic contracts stand for them.
- HTTP, WebSocket, TCP, subprocess, file and environment plumbing, logging: no property spans them.
- Option validators and type guards: each is settled by reading one branch.
- EXIF, GPS distance, C2PA and ProofMode checks: floating point, trigonometry and output of other tools.
- The two-step escrow swap of packages/sdk/src/payments/cashu/cashu-escrow.ts: its second swap depends on library behaviour.
- Distributed key generation: its rounds are not order-checked, so only counting claims would hold.
- The condition language of TLSNotary requirements: whether the conditions and the server name match is an input of a validation.
- Persistence of preimages and of Customer and Provider state in files: the maps are modelled, their files are not.
- Delivery of the preimage to the Provider: the daemon's message and the Provider's parser differ in shape, so the exchange proves safety and that a Provider who knows the preimage is paid, not that the message is understood.
- A mint's choice among repeated "sigflag" tags: one that says SIG_ALL counts.
- Custom offer selectors: a Customer with one is among the others of the exchange, whose selections are arbitrary.
- The mint's fee schedule and denominations: the fee is a function of the proofs, and output amounts are positive.
- Fractional amounts: offers and locks are whole satoshis, as the amount checks demand.
- Query fields without influence on the flow (description, location, nonce, schema, metadata, blob keys) and hooks.
- A service without an oracle registry: the registry is always there and may be empty.
- Unicode whitespace: trimming removes the ASCII whitespace characters.
- Redaction.RangesMean: requests are ASCII, one character to a byte; replacement of invalid UTF-8 is not modelled.
- Base64.Base64Decode: the lookup table is the function it tabulates, not an array.
- ChunkedBody.DecodeChunkedBody: text is ASCII; slicing inside a multi-byte character is not modelled.
- TlsnReplay.ValidateTlsn: messages in the lists of checks and failures are not modelled, only whether the presentation passes.
- QueryService.Service.SubmitEscrowResult: one call at a time; calls that overlap are runs of the machine in QueryMachine.
- QuerySequential.PreimageReturnedAtMostOnce: for runs without overlapping calls; QueryReveals.ReturnedTwiceIffOverlap gives the exact condition over all runs.
