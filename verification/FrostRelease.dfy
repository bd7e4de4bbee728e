/** Group signatures from the signing sessions to the redeemed token. */
module FrostRelease {
  import opened Wrappers
  import opened Sets
  import opened SpendingConditions
  import opened FrostMessages
  import FrostCoordinator
  import FrostSigners
  import Numerals
  import PaymentLock

  /** The messages to sign for a release; None when the escrow token cannot be decoded. */
  function ReleaseMessages(decode: Decoder, queryId: string, token: Option<string>): Option<seq<Digest>> {
    if token.None? || token.value == "" then Some([SigningMessage(queryId)])
    else if decode(token.value).None? then None
    else Some(ProofMessages(decode(token.value).value))
  }

  /** The signature of the session run for a message, given what its signers reply. */
  function SessionSignature(
    c: FrostCoordinator.Config, message: Digest, r: FrostCoordinator.Replies): Option<Signature>
  {
    var outcome := FrostCoordinator.Coordinate(c, message, r);
    if outcome.Some? then Some(outcome.value.signature) else None
  }

  /** One signing session per message, in order; the first failure ends the release with nothing. */
  method CollectSignatures(c: FrostCoordinator.Config, messages: seq<Digest>, replies: seq<FrostCoordinator.Replies>)
    returns (r: Option<seq<Signature>>)
    requires |replies| == |messages|
    ensures r.Some? <==> forall i :: 0 <= i < |messages| ==> SessionSignature(c, messages[i], replies[i]).Some?
    ensures r.Some? ==> SignedByGroup(c.group, messages, r.value)
  {
    var signatures: seq<Signature> := [];
    for k := 0 to |messages|
      invariant |signatures| == k
      invariant forall i :: 0 <= i < k ==>
        SessionSignature(c, messages[i], replies[i]).Some? && signatures[i] == Sig(c.group, messages[i])
    {
      var outcome := FrostCoordinator.CoordinateSigning(c, messages[k], replies[k]);
      assert outcome.Some? <==> SessionSignature(c, messages[k], replies[k]).Some?;
      if outcome.None? {
        return None;
      }
      FrostCoordinator.SessionFacts(c, messages[k], replies[k]);
      signatures := signatures + [outcome.value.signature];
    }
    return Some(signatures);
  }

  /** The i-th signature is the group's, over the i-th message. */
  predicate SignedByGroup(group: string, messages: seq<Digest>, signatures: seq<Signature>) {
    |signatures| == |messages| && forall i :: 0 <= i < |messages| ==> signatures[i] == Sig(group, messages[i])
  }

  /** Every session of a release succeeded. */
  predicate AllSigned(c: FrostCoordinator.Config, messages: seq<Digest>, replies: seq<FrostCoordinator.Replies>) {
    |replies| == |messages| && forall i :: 0 <= i < |messages| ==>
      FrostCoordinator.Coordinate(c, messages[i], replies[i]).Some?
  }

  /** The secret of proof i is what session i signed, by exactly threshold distinct signers. */
  lemma SessionSignsOwnSecret(
    decode: Decoder, queryId: string, token: string, c: FrostCoordinator.Config,
    replies: seq<FrostCoordinator.Replies>, i: nat)
    requires token != "" && decode(token).Some? && i < |decode(token).value|
    requires AllSigned(c, ReleaseMessages(decode, queryId, Some(token)).value, replies)
    requires FrostCoordinator.Injective(c.identify) && c.threshold >= 2
    requires FrostCoordinator.DistinctPeers(replies[i].peers)
    ensures var message := Sha(decode(token).value[i].secret.raw);
      && FrostCoordinator.Coordinate(c, message, replies[i]).Some?
      && var outcome := FrostCoordinator.Coordinate(c, message, replies[i]).value;
         && outcome.signature == Sig(c.group, message)
         && |outcome.participants| == c.threshold
         && forall a, b :: 0 <= a < b < c.threshold ==> outcome.participants[a] != outcome.participants[b]
  {
    var messages := ReleaseMessages(decode, queryId, Some(token)).value;
    assert messages[i] == Sha(decode(token).value[i].secret.raw);
    FrostCoordinator.SessionFacts(c, messages[i], replies[i]);
    FrostCoordinator.SignatureHasExactlyThreshold(c, messages[i], replies[i]);
  }

  /**
   What a release delivers for a token: one group signature per proof, over that proof's own secret, made by exactly
   threshold distinct signers; and each of them other than this node that runs the signer software made its share
   over that very secret after verifying a requirement itself, one that on the routes allows signing it.
   */
  lemma DeliveredSignaturesRestOnVerifiedShares(
    decode: Decoder, nodes: map<nat, FrostSigners.NodeKind>, actions: seq<FrostSigners.Action>,
    queryId: string, token: string, c: FrostCoordinator.Config, replies: seq<FrostCoordinator.Replies>, i: nat, j: nat)
    returns (call: FrostSigners.Round1)
    requires token != "" && decode(token).Some? && i < |decode(token).value| && 0 < j < c.threshold
    requires AllSigned(c, ReleaseMessages(decode, queryId, Some(token)).value, replies)
    requires FrostCoordinator.Injective(c.identify) && FrostCoordinator.DistinctPeers(replies[i].peers)
    requires FrostCoordinator.SharesAreMade(FrostSigners.Exec(decode, FrostSigners.Init(nodes),
        actions).log, nodes, replies[i].peers)
    ensures var message := Sha(decode(token).value[i].secret.raw);
      && FrostCoordinator.Coordinate(c, message, replies[i]).Some?
      && var outcome := FrostCoordinator.Coordinate(c, message, replies[i]).value;
         && outcome.signature == Sig(c.group, message) && |outcome.participants| == c.threshold
         && (outcome.participants[j] in nodes ==>
               FrostCoordinator.VerifiedAndShared(
                 decode, nodes[outcome.participants[j]], FrostSigners.Exec(decode, FrostSigners.Init(nodes),
                   actions).log,
                 outcome.participants[j], message, call))
  {
    var message := Sha(decode(token).value[i].secret.raw);
    SessionSignsOwnSecret(decode, queryId, token, c, replies, i);
    var p := FrostCoordinator.Coordinate(c, message, replies[i]).value.participants[j];
    if p in nodes {
      call := FrostCoordinator.EveryParticipantVerified(decode, nodes, actions, c, message, replies[i], j);
    } else {
      call := FrostSigners.Round1(0, Requirement("", None), "", message, None);
    }
  }

  // ---- Witnesses ----

  datatype Entry = Text(signature: Signature) | NotText

  /** A proof's witness field: unreadable, or a record with other fields and perhaps a signature list. */
  datatype WitnessField = Unreadable | Record(others: string, signatures: Option<seq<Entry>>)

  datatype SignedProof = SignedProof(proof: Proof, field: WitnessField)

  function Texts(entries: seq<Entry>): seq<Signature> {
    if entries == [] then []
    else
      var last := entries[|entries| - 1];
      Texts(entries[..|entries| - 1]) + (if last.Text? then [last.signature] else [])
  }

  /** The signatures a witness carries. */
  function Signatures(field: WitnessField): seq<Signature> {
    if field.Record? && field.signatures.Some? then Texts(field.signatures.value) else []
  }

  function AsEntries(signatures: seq<Signature>): seq<Entry> {
    seq(|signatures|, i requires 0 <= i < |signatures| => Text(signatures[i]))
  }

  datatype AppendError = CountMismatch

  /** Append each group signature to its proof's witness. */
  function AppendGroupSignatures(
    proofs: seq<SignedProof>, signatures: seq<Signature>): Result<seq<SignedProof>, AppendError>
  {
    if |proofs| != |signatures| then Err(CountMismatch)
    else Ok(seq(|proofs|, i requires 0 <= i < |proofs| =>
      var field := proofs[i].field;
      var others := if field.Record? then field.others else "";
      proofs[i].(field := Record(others, Some(AsEntries(Signatures(field) + [signatures[i]]))))))
  }

  lemma {:induction false} TextsOfEntries(signatures: seq<Signature>)
    ensures Texts(AsEntries(signatures)) == signatures
  {
    if signatures != [] {
      var n := |signatures| - 1;
      TextsOfEntries(signatures[..n]);
      assert AsEntries(signatures)[..n] == AsEntries(signatures[..n]);
    }
  }

  /**
   Appending succeeds exactly on matching counts; each witness then carries what it had, plus its own signature last.
   */
  lemma AppendAddsOwnSignature(proofs: seq<SignedProof>, signatures: seq<Signature>)
    ensures AppendGroupSignatures(proofs, signatures).Ok? <==> |proofs| == |signatures|
    ensures |proofs| == |signatures| ==>
      var out := AppendGroupSignatures(proofs, signatures).value;
      && |out| == |proofs|
      && forall i :: 0 <= i < |proofs| ==>
           && out[i].proof == proofs[i].proof
           && Signatures(out[i].field) == Signatures(proofs[i].field) + [signatures[i]]
  {
    forall i | 0 <= i < |proofs| && |proofs| == |signatures|
      ensures Texts(AsEntries(Signatures(proofs[i].field) + [signatures[i]]))
           == Signatures(proofs[i].field) + [signatures[i]]
    {
      TextsOfEntries(Signatures(proofs[i].field) + [signatures[i]]);
    }
  }

  // ---- The FROST lock at the mint ----

  /** The keys whose signature over this proof's secret is in its witness (SIG_INPUTS). */
  function SignersOf(p: SignedProof): set<string> {
    set s | s in Signatures(p.field) && s.message == Sha(p.proof.secret.raw) :: XOnly(s.key)
  }

  function WitnessOf(p: SignedProof): Witness {
    Witness(None, SignersOf(p))
  }

  /** A lock for Provider and group together, with a Customer refund after the locktime. */
  ghost predicate IsFrostLock(s: Secret, provider: string, group: string, customer: string, locktime: nat) {
    && s.WellKnown? && s.kind == "P2PK" && s.data == Some(provider)
    && UniqueTags(s.tags)
    && FindTag(s.tags, "pubkeys") == Some(["pubkeys", group])
    && PaymentLock.HasTagValue(s.tags, "n_sigs", "2")
    && PaymentLock.HasTagValue(s.tags, "locktime", Numerals.Numeral(locktime, 10))
    && FindTag(s.tags, "refund") == Some(["refund", customer])
    && PaymentLock.AbsentOrOne(s.tags, "n_sigs_refund")
  }

  lemma BothKeys(a: string, b: string, signers: set<string>)
    requires XOnly(a) != XOnly(b)
    ensures |Signed([a, b], signers)| >= 2 <==> XOnly(a) in signers && XOnly(b) in signers
  {
    var keys := [a, b];
    assert keys[0] in keys && keys[1] in keys;
    assert forall k :: k in keys ==> k == a || k == b;
    assert Signed(keys, signers) <= {XOnly(a), XOnly(b)};
    if XOnly(a) in signers && XOnly(b) in signers {
      assert Signed(keys, signers) == {XOnly(a), XOnly(b)};
    } else if XOnly(a) in signers {
      assert Signed(keys, signers) == {XOnly(a)};
    } else {
      assert Signed(keys, signers) <= {XOnly(b)};
      SubsetIsSmaller(Signed(keys, signers), {XOnly(b)});
    }
  }

  lemma KeyPathMeaning(
    s: Secret, c: Conditions, provider: string, group: string, customer: string, locktime: nat, w: Witness)
    requires IsFrostLock(s, provider, group, customer, locktime) && Reads(s.tags, c) && XOnly(provider) != XOnly(group)
    ensures KeyPath(provider, c, w) <==> XOnly(provider) in w.signers && XOnly(group) in w.signers
  {
    UniqueTagIsFirst(s.tags, "pubkeys", c.pubkeys);
    UniqueTagIsFirst(s.tags, "n_sigs", c.nSigs);
    assert c.pubkeys.value == ["pubkeys", group][1..] == [group];
    assert c.nSigs.value[0] == "2";
    TwoSignatures(c.nSigs);
    assert [provider] + [group] == [provider, group];
    BothKeys(provider, group, w.signers);
  }

  lemma RefundPathMeaning(
    s: Secret, c: Conditions, provider: string, group: string, customer: string, locktime: nat, w: Witness, now: int)
    requires IsFrostLock(s, provider, group, customer, locktime) && Reads(s.tags, c)
    ensures RefundPath(c, w, now) <==> now > locktime && XOnly(customer) in w.signers
  {
    UniqueTagIsFirst(s.tags, "refund", c.refund);
    UniqueTagIsFirst(s.tags, "n_sigs_refund", c.nSigsRefund);
    assert c.refund.value == ["refund", customer][1..] == [customer];
    PaymentLock.LocktimeTag(s.tags, locktime, c.locktime);
    SingleKey(c.refund.value, c.nSigsRefund, w.signers);
  }

  /**
   A FROST lock is spendable by Provider and group together, or by the Customer after the locktime; in no other way.
   */
  lemma FrostLockMeaning(
    sha: string -> string, s: Secret, c: Conditions, provider: string, group: string, customer: string, locktime: nat,
    w: Witness, now: int)
    requires IsFrostLock(s, provider, group, customer, locktime) && Reads(s.tags, c) && XOnly(provider) != XOnly(group)
    ensures Spendable(sha, s, c, w, now) <==>
      || (XOnly(provider) in w.signers && XOnly(group) in w.signers)
      || (now > locktime && XOnly(customer) in w.signers)
  {
    KeyPathMeaning(s, c, provider, group, customer, locktime, w);
    RefundPathMeaning(s, c, provider, group, customer, locktime, w, now);
    assert "P2PK" != "HTLC" by { assert "P2PK"[0] != "HTLC"[0]; }
  }

  lemma SignerPresent(p: SignedProof, key: string)
    requires Sig(key, Sha(p.proof.secret.raw)) in Signatures(p.field)
    ensures XOnly(key) in SignersOf(p)
  {
  }

  /**
   The whole release works out: Provider-signed proofs of a FROST lock, with the delivered group signatures appended,
   are each spendable at the mint at any time.
   */
  lemma AppendedTokenIsSpendable(
    sha: string -> string, proofs: seq<SignedProof>, signatures: seq<Signature>, provider: string, group: string,
    customer: string, locktime: nat, i: nat, c: Conditions, now: int)
    requires i < |proofs| == |signatures| && XOnly(provider) != XOnly(group)
    requires IsFrostLock(proofs[i].proof.secret, provider, group, customer, locktime)
    requires Reads(proofs[i].proof.secret.tags, c)
    requires Sig(provider, Sha(proofs[i].proof.secret.raw)) in Signatures(proofs[i].field)
    requires SignedByGroup(group, seq(|proofs|,
        k requires 0 <= k < |proofs| => Sha(proofs[k].proof.secret.raw)), signatures)
    ensures var out := AppendGroupSignatures(proofs, signatures).value[i];
      Spendable(sha, out.proof.secret, c, WitnessOf(out), now)
  {
    AppendAddsOwnSignature(proofs, signatures);
    var out := AppendGroupSignatures(proofs, signatures).value[i];
    assert signatures[i] == Sig(group, Sha(proofs[i].proof.secret.raw));
    SignerPresent(out, provider);
    SignerPresent(out, group);
    FrostLockMeaning(sha, out.proof.secret, c, provider, group, customer, locktime, WitnessOf(out), now);
  }

  /** Alignment matters: with a group signature over another secret the proof stays locked until the locktime. */
  lemma MisalignedSignatureDoesNotUnlock(
    sha: string -> string, proofs: seq<SignedProof>, signatures: seq<Signature>, provider: string, group: string,
    customer: string, locktime: nat, i: nat, c: Conditions, now: int)
    requires i < |proofs| == |signatures| && XOnly(provider) != XOnly(group)
    requires IsFrostLock(proofs[i].proof.secret, provider, group, customer, locktime)
    requires Reads(proofs[i].proof.secret.tags, c)
    requires signatures[i].message != Sha(proofs[i].proof.secret.raw) && XOnly(group) !in SignersOf(proofs[i])
    requires now <= locktime
    ensures var out := AppendGroupSignatures(proofs, signatures).value[i];
      !Spendable(sha, out.proof.secret, c, WitnessOf(out), now)
  {
    AppendAddsOwnSignature(proofs, signatures);
    var out := AppendGroupSignatures(proofs, signatures).value[i];
    assert SignersOf(out) == SignersOf(proofs[i]);
    FrostLockMeaning(sha, out.proof.secret, c, provider, group, customer, locktime, WitnessOf(out), now);
  }

  // ---- The lock the SDK asks for ----

  /** The tags of a lock built for Provider and group with a Customer refund. */
  function BuiltTags(group: string, customer: string, locktime: nat): seq<Tag> {
    [ Strings(["pubkeys", group]), Strings(["n_sigs", "2"]),
      Strings(["locktime", Numerals.Numeral(locktime, 10)]), Strings(["refund", customer])]
  }

  /** Without a refund key no lock is built; otherwise the built lock is a FROST lock. */
  function BuildLock(provider: string, group: string, customer: string, locktime: nat): Option<Secret> {
    if customer == "" then None else Some(WellKnown("", "P2PK", Some(provider), BuiltTags(group, customer, locktime)))
  }

  lemma BuiltNamesDiffer()
    ensures "pubkeys" != "n_sigs" && "pubkeys" != "locktime" && "pubkeys" != "refund" && "n_sigs" != "locktime"
    ensures "n_sigs" != "refund" && "locktime" != "refund"
    ensures "n_sigs_refund" != "pubkeys" && "n_sigs_refund" != "n_sigs" && "n_sigs_refund" != "locktime"
    ensures "n_sigs_refund" != "refund"
  {
    PaymentLock.TagNamesDiffer();
    assert |"n_sigs"| == 6 && |"n_sigs_refund"| == 13;
  }

  /** Tags whose first entries are four different names. */
  predicate FourNames(tags: seq<Tag>, a: string, b: string, c: string, d: string) {
    && |tags| == 4 && Named(tags[0], a) && Named(tags[1], b) && Named(tags[2], c) && Named(tags[3], d)
    && a != b && a != c && a != d && b != c && b != d && c != d
  }

  lemma FourTagsAreUnique(tags: seq<Tag>, a: string, b: string, c: string, d: string, name: string)
    requires FourNames(tags, a, b, c, d)
    ensures UniqueTag(tags, name)
  {
    forall i, j | 0 <= i < 4 && 0 <= j < 4 && Named(tags[i], name) && Named(tags[j], name)
      ensures i == j
    {
    }
  }

  lemma FourTagsFound(tags: seq<Tag>, a: string, b: string, c: string, d: string)
    requires FourNames(tags, a, b, c, d)
    ensures FindTag(tags, a) == Some(tags[0].items) && FindTag(tags, b) == Some(tags[1].items)
    ensures FindTag(tags, c) == Some(tags[2].items) && FindTag(tags, d) == Some(tags[3].items)
  {
    PaymentLock.FoundAt(tags, a, 0);
    PaymentLock.FoundAt(tags, b, 1);
    PaymentLock.FoundAt(tags, c, 2);
    PaymentLock.FoundAt(tags, d, 3);
  }

  lemma FourTagsOnly(tags: seq<Tag>, a: string, b: string, c: string, d: string, name: string)
    requires FourNames(tags, a, b, c, d) && name != a && name != b && name != c && name != d
    ensures FindTag(tags, name).None?
  {
  }

  lemma BuiltTagsShape(group: string, customer: string, locktime: nat)
    ensures FourNames(BuiltTags(group, customer, locktime), "pubkeys", "n_sigs", "locktime", "refund")
  {
    BuiltNamesDiffer();
  }

  lemma ShapeHasUniqueTags(tags: seq<Tag>)
    requires FourNames(tags, "pubkeys", "n_sigs", "locktime", "refund")
    ensures UniqueTags(tags)
  {
    forall name { FourTagsAreUnique(tags, "pubkeys", "n_sigs", "locktime", "refund", name); }
  }

  lemma ShapeIsFrostLock(tags: seq<Tag>, provider: string, group: string, customer: string, locktime: nat)
    requires FourNames(tags, "pubkeys", "n_sigs", "locktime", "refund")
    requires tags[0].items == ["pubkeys", group] && tags[1].items == ["n_sigs", "2"]
    requires tags[2].items == ["locktime", Numerals.Numeral(locktime, 10)] && tags[3].items == ["refund", customer]
    ensures IsFrostLock(WellKnown("", "P2PK", Some(provider), tags), provider, group, customer, locktime)
  {
    ShapeHasUniqueTags(tags);
    BuiltNamesDiffer();
    FourTagsFound(tags, "pubkeys", "n_sigs", "locktime", "refund");
    FourTagsOnly(tags, "pubkeys", "n_sigs", "locktime", "refund", "n_sigs_refund");
  }

  lemma BuiltLockIsFrostLock(provider: string, group: string, customer: string, locktime: nat)
    ensures BuildLock(provider, group, customer, locktime).Some? <==> customer != ""
    ensures customer != "" ==>
      IsFrostLock(BuildLock(provider, group, customer, locktime).value, provider, group, customer, locktime)
  {
    BuiltTagsShape(group, customer, locktime);
    ShapeIsFrostLock(BuiltTags(group, customer, locktime), provider, group, customer, locktime);
  }
}
