/** The Provider's check of a Payment Lock, and what an accepted lock means at the mint. */
module PaymentLock {
  import opened Wrappers
  import opened SpendingConditions
  import Numerals
  import Text

  const MIN_REMAINING_SECONDS := 600

  datatype LockTerms = LockTerms(
    amountSats: int, hashHex: string, providerPubkey: string, customerPubkey: string, locktimeSeconds: nat)

  datatype LockError =
    | NoProofs | InvalidHash | LocktimeNotFuture | LocktimeTooShort | DuplicateProofs | AmountMismatch
    | MalformedSecret(index: nat) | NotHtlc(index: nat) | HashMismatch | NotLockedToProvider | RefundKeyMismatch
    | LocktimeMismatch | NotSigAll | ExtraSignatures | ExtraRefundSignatures

  predicate IsHashHex(s: string) {
    |s| == 64 && forall i :: 0 <= i < |s| ==> Numerals.IsDigit(s[i], 16)
  }

  predicate HasParityPrefix(key: string) {
    Text.StartsWith(key, "02") || Text.StartsWith(key, "03")
  }

  /** The spellings of a key accepted in a lock. */
  function KeyVariants(pubkey: string): seq<string> {
    if HasParityPrefix(pubkey) then [pubkey] else [pubkey, "02" + pubkey]
  }

  function SumAmounts(proofs: seq<Proof>): int {
    if proofs == [] then 0 else SumAmounts(proofs[..|proofs| - 1]) + proofs[|proofs| - 1].amount
  }

  predicate HasTagValue(tags: seq<Tag>, name: string, value: string) {
    var tag := FindTag(tags, name);
    tag.Some? && |tag.value| > 1 && tag.value[1] == value
  }

  predicate HasSingleKey(tags: seq<Tag>, name: string, accepted: seq<string>) {
    var tag := FindTag(tags, name);
    tag.Some? && |tag.value| == 2 && tag.value[1] in accepted
  }

  predicate AbsentOrOne(tags: seq<Tag>, name: string) {
    FindTag(tags, name).None? || HasTagValue(tags, name, "1")
  }

  /** The checks on one proof, in the source's order. */
  function CheckSecret(s: Secret, index: nat, terms: LockTerms): Option<LockError> {
    if s.Malformed? then Some(MalformedSecret(index))
    else if !s.WellKnown? || s.kind != "HTLC" then Some(NotHtlc(index))
    else if s.data != Some(Text.Lower(terms.hashHex)) then Some(HashMismatch)
    else if !HasSingleKey(s.tags, "pubkeys", KeyVariants(terms.providerPubkey)) then Some(NotLockedToProvider)
    else if !HasSingleKey(s.tags, "refund", KeyVariants(terms.customerPubkey)) then Some(RefundKeyMismatch)
    else if !HasTagValue(s.tags, "locktime", Numerals.Numeral(terms.locktimeSeconds, 10)) then Some(LocktimeMismatch)
    else if !HasTagValue(s.tags, "sigflag", "SIG_ALL") then Some(NotSigAll)
    else if !AbsentOrOne(s.tags, "n_sigs") then Some(ExtraSignatures)
    else if !AbsentOrOne(s.tags, "n_sigs_refund") then Some(ExtraRefundSignatures)
    else None
  }

  predicate DistinctSecrets(proofs: seq<Proof>) {
    forall i, j :: 0 <= i < j < |proofs| ==> proofs[i].secret.raw != proofs[j].secret.raw
  }

  /** Everything the check demands of a token, its swap fee and the current time. */
  predicate Acceptable(proofs: seq<Proof>, terms: LockTerms, fee: int, now: int) {
    && proofs != []
    && IsHashHex(terms.hashHex)
    && terms.locktimeSeconds - now >= MIN_REMAINING_SECONDS
    && DistinctSecrets(proofs)
    && SumAmounts(proofs) - fee == terms.amountSats
    && forall i :: 0 <= i < |proofs| ==> CheckSecret(proofs[i].secret, i, terms).None?
  }

  /** The duplicate scan over a growing set of seen secrets. */
  method RejectDuplicateProofs(proofs: seq<Proof>) returns (distinct: bool)
    ensures distinct <==> DistinctSecrets(proofs)
  {
    var seenSecrets: set<string> := {};
    for k := 0 to |proofs|
      invariant seenSecrets == set i | 0 <= i < k :: proofs[i].secret.raw
      invariant DistinctSecrets(proofs[..k])
    {
      if proofs[k].secret.raw in seenSecrets {
        return false;
      }
      seenSecrets := seenSecrets + {proofs[k].secret.raw};
    }
    assert proofs[..|proofs|] == proofs;
    return true;
  }

  /** Accepts exactly the acceptable tokens, and names the first proof that fails. */
  method ValidateProofs(proofs: seq<Proof>, terms: LockTerms, fee: int, now: int)
    returns (r: Result<int, LockError>)
    ensures r.Ok? <==> Acceptable(proofs, terms, fee, now)
    ensures r.Ok? ==> r.value == terms.amountSats
    ensures r.Err? && (r.error.MalformedSecret? || r.error.NotHtlc?) ==>
      && r.error.index < |proofs|
      && CheckSecret(proofs[r.error.index].secret, r.error.index, terms) == Some(r.error)
      && forall i :: 0 <= i < r.error.index ==> CheckSecret(proofs[i].secret, i, terms).None?
  {
    if proofs == [] {
      return Err(NoProofs);
    }
    if !IsHashHex(terms.hashHex) {
      return Err(InvalidHash);
    }
    if terms.locktimeSeconds <= now {
      return Err(LocktimeNotFuture);
    }
    if terms.locktimeSeconds - now < MIN_REMAINING_SECONDS {
      return Err(LocktimeTooShort);
    }
    var distinct := RejectDuplicateProofs(proofs);
    if !distinct {
      return Err(DuplicateProofs);
    }
    if SumAmounts(proofs) - fee != terms.amountSats {
      return Err(AmountMismatch);
    }
    for k := 0 to |proofs|
      invariant forall i :: 0 <= i < k ==> CheckSecret(proofs[i].secret, i, terms).None?
    {
      var e := CheckSecret(proofs[k].secret, k, terms);
      if e.Some? {
        return Err(e.value);
      }
    }
    return Ok(SumAmounts(proofs) - fee);
  }

  /** A Nostr key: 32 bytes in hex, no parity byte. */
  predicate IsNostrKey(key: string) {
    |key| == 64
  }

  lemma VariantsAreTheKey(key: string, spelling: string)
    requires IsNostrKey(key) && spelling in KeyVariants(key)
    ensures XOnly(spelling) == key
  {
    if spelling != key {
      assert spelling == "02" + key;
      assert spelling[2..] == key;
    }
  }

  lemma SingleKeyTag(
    tags: seq<Tag>, name: string, n: string, key: string, c: Option<seq<string>>, cn: Option<seq<string>>,
    signers: set<string>)
    requires IsNostrKey(key) && HasSingleKey(tags, name, KeyVariants(key)) && AbsentOrOne(tags, n)
    requires UniqueTag(tags, name) && UniqueTag(tags, n)
    requires ReadsTag(tags, name, c) && ReadsTag(tags, n, cn)
    ensures c.Some? && |c.value| == 1 && (MultiSig(c.value, cn, signers) <==> key in signers)
  {
    UniqueTagIsFirst(tags, name, c);
    UniqueTagIsFirst(tags, n, cn);
    var tag := FindTag(tags, name).value;
    assert c.value == tag[1..] == [tag[1]];
    VariantsAreTheKey(key, tag[1]);
    SingleKey(c.value, cn, signers);
  }

  lemma LocktimeTag(tags: seq<Tag>, locktime: nat, c: Option<seq<string>>)
    requires HasTagValue(tags, "locktime", Numerals.Numeral(locktime, 10))
    requires UniqueTag(tags, "locktime") && ReadsTag(tags, "locktime", c)
    ensures c.Some? && |c.value| > 0 && Numerals.Parse(c.value[0], 10) == Some(locktime)
  {
    UniqueTagIsFirst(tags, "locktime", c);
    assert c.value[0] == FindTag(tags, "locktime").value[1];
    Numerals.NumeralRoundTrip(locktime, 10);
  }

  /**
   What an accepted proof means, for every mint reading of its tags, every witness and every time:
   preimage and Provider signature, or, past the locktime, the Customer's signature, and nothing else.
   */
  lemma AcceptedSecretMeaning(
    sha: string -> string, s: Secret, index: nat, terms: LockTerms, c: Conditions, w: Witness, now: int)
    requires CheckSecret(s, index, terms).None?
    requires UniqueTags(s.tags) && Reads(s.tags, c)
    requires IsNostrKey(terms.providerPubkey) && IsNostrKey(terms.customerPubkey)
    ensures Spendable(sha, s, c, w, now) <==>
      || (&& w.preimage.Some? && sha(w.preimage.value) == Text.Lower(terms.hashHex)
          && terms.providerPubkey in w.signers)
      || (now > terms.locktimeSeconds && terms.customerPubkey in w.signers)
  {
    SingleKeyTag(s.tags, "pubkeys", "n_sigs", terms.providerPubkey, c.pubkeys, c.nSigs, w.signers);
    SingleKeyTag(s.tags, "refund", "n_sigs_refund", terms.customerPubkey, c.refund, c.nSigsRefund, w.signers);
    LocktimeTag(s.tags, terms.locktimeSeconds, c.locktime);
  }

  /** How the wallet library spells a lock key: as given, or with a parity byte in front. */
  datatype Spelling = AsGiven | Prefixed

  function Spell(key: string, form: Spelling): string {
    if form.AsGiven? then key else "02" + key
  }

  /** The lock the Customer asks for: hash, Provider key, locktime, Customer refund, SIG_ALL. */
  function BuiltLock(terms: LockTerms, form: Spelling): (s: Secret)
    ensures s.WellKnown?
  {
    WellKnown("", "HTLC", Some(terms.hashHex),
      [ Strings(["pubkeys", Spell(terms.providerPubkey, form)]),
        Strings(["locktime", Numerals.Numeral(terms.locktimeSeconds, 10)]),
        Strings(["refund", Spell(terms.customerPubkey, form)]),
        Strings(["sigflag", "SIG_ALL"])])
  }

  /**
   When a lock built from the same terms passes: only with a lower-case hash and, if the library adds
   a parity byte, only for keys that do not already look prefixed.
   */
  lemma BuiltLockAcceptedIff(terms: LockTerms, form: Spelling, index: nat)
    requires IsNostrKey(terms.providerPubkey) && IsNostrKey(terms.customerPubkey)
    ensures CheckSecret(BuiltLock(terms, form), index, terms).None? <==>
      && Text.Lower(terms.hashHex) == terms.hashHex
      && (form.Prefixed? ==> !HasParityPrefix(terms.providerPubkey) && !HasParityPrefix(terms.customerPubkey))
  {
    TagNamesDiffer();
    SpellingAccepted(terms.providerPubkey, form);
    SpellingAccepted(terms.customerPubkey, form);
    CheckOfLockTags(BuiltLock(terms, form), index, terms, Spell(terms.providerPubkey, form),
                    Numerals.Numeral(terms.locktimeSeconds, 10), Spell(terms.customerPubkey, form));
  }

  lemma TagNamesDiffer()
    ensures "pubkeys" != "locktime" && "pubkeys" != "refund" && "pubkeys" != "sigflag" && "pubkeys" != "n_sigs"
    ensures "pubkeys" != "n_sigs_refund" && "locktime" != "refund" && "locktime" != "sigflag" && "locktime" != "n_sigs"
    ensures "locktime" != "n_sigs_refund" && "refund" != "sigflag" && "refund" != "n_sigs"
    ensures "refund" != "n_sigs_refund"
    ensures "sigflag" != "n_sigs" && "sigflag" != "n_sigs_refund"
  {
    assert "pubkeys"[0] == 'p' && "sigflag"[0] == 's' && "refund"[0] == 'r' && "n_sigs"[0] == 'n';
    assert |"pubkeys"| == 7 && |"locktime"| == 8 && |"refund"| == 6 && |"n_sigs_refund"| == 13 && |"sigflag"| == 7;
  }

  lemma {:induction false} FoundAt(tags: seq<Tag>, name: string, k: nat)
    requires k < |tags| && Named(tags[k], name)
    requires forall i :: 0 <= i < k ==> !Named(tags[i], name)
    ensures FindTag(tags, name) == Some(tags[k].items)
  {
    if k > 0 {
      assert forall i :: 0 <= i < |tags[1..]| ==> tags[1..][i] == tags[i + 1];
      FoundAt(tags[1..], name, k - 1);
    }
  }

  /** Tags that carry the lock's values in the built order, whatever follows them. */
  predicate StartsWithLock(tags: seq<Tag>, provider: string, locktime: string, customer: string) {
    && |tags| >= 4
    && tags[0] == Strings(["pubkeys", provider])
    && tags[1] == Strings(["locktime", locktime])
    && tags[2] == Strings(["refund", customer])
    && tags[3] == Strings(["sigflag", "SIG_ALL"])
  }

  lemma LockTagsFound(tags: seq<Tag>, provider: string, locktime: string, customer: string)
    requires StartsWithLock(tags, provider, locktime, customer)
    ensures FindTag(tags, "pubkeys") == Some(["pubkeys", provider])
    ensures FindTag(tags, "locktime") == Some(["locktime", locktime])
    ensures FindTag(tags, "refund") == Some(["refund", customer])
    ensures FindTag(tags, "sigflag") == Some(["sigflag", "SIG_ALL"])
  {
    TagNamesDiffer();
    FoundAt(tags, "pubkeys", 0);
    FoundAt(tags, "locktime", 1);
    FoundAt(tags, "refund", 2);
    FoundAt(tags, "sigflag", 3);
  }

  /** The per-proof check on tags that start with a built lock and add no signature counts. */
  lemma CheckOfLockTags(s: Secret, index: nat, terms: LockTerms, provider: string, locktime: string, customer: string)
    requires s.WellKnown? && s.kind == "HTLC" && StartsWithLock(s.tags, provider, locktime, customer)
    requires forall i :: 0 <= i < |s.tags| ==> !Named(s.tags[i], "n_sigs") && !Named(s.tags[i], "n_sigs_refund")
    ensures CheckSecret(s, index, terms).None? <==>
      && s.data == Some(Text.Lower(terms.hashHex))
      && provider in KeyVariants(terms.providerPubkey)
      && customer in KeyVariants(terms.customerPubkey)
      && locktime == Numerals.Numeral(terms.locktimeSeconds, 10)
  {
    LockTagsFound(s.tags, provider, locktime, customer);
  }

  lemma SpellingAccepted(key: string, form: Spelling)
    requires IsNostrKey(key)
    ensures Spell(key, form) in KeyVariants(key) <==> (form.Prefixed? ==> !HasParityPrefix(key))
  {
    if HasParityPrefix(key) {
      assert |"02" + key| != |key|;
    } else {
      assert KeyVariants(key)[1] == "02" + key;
    }
  }

  function SecretsOf(proofs: seq<Proof>): seq<Secret> {
    seq(|proofs|, i requires 0 <= i < |proofs| => proofs[i].secret)
  }

  function TagsOf(s: Secret): seq<Tag> {
    if s.WellKnown? then s.tags else []
  }

  predicate EqualTags(proofs: seq<Proof>) {
    forall i :: 0 <= i < |proofs| ==> TagsOf(proofs[i].secret) == TagsOf(proofs[0].secret)
  }

  lemma AcceptedAsksSigAll(s: Secret, index: nat, terms: LockTerms)
    requires CheckSecret(s, index, terms).None?
    ensures s.WellKnown? && s.kind == "HTLC" && s.data == Some(Text.Lower(terms.hashHex)) && SigAll(s)
  {
    var tag := FindTag(s.tags, "sigflag");
    var i :| 0 <= i < |s.tags| && Named(s.tags[i], "sigflag") && s.tags[i].items == tag.value;
  }

  predicate IsLockOn(s: Secret, data: string) {
    s.WellKnown? && s.kind == "HTLC" && s.data == Some(data) && SigAll(s)
  }

  lemma ShareConditionIff(proofs: seq<Proof>, data: string)
    requires proofs != [] && forall i :: 0 <= i < |proofs| ==> IsLockOn(proofs[i].secret, data)
    ensures OneCondition(SecretsOf(proofs)) <==> EqualTags(proofs)
  {
    var secrets := SecretsOf(proofs);
    assert IsLockOn(secrets[0], data);
    if OneCondition(secrets) {
      forall i | 0 <= i < |proofs|
        ensures TagsOf(proofs[i].secret) == TagsOf(proofs[0].secret)
      {
        assert SameCondition(secrets[0], secrets[i]);
      }
    }
    if EqualTags(proofs) {
      forall i | 0 <= i < |proofs|
        ensures SigAll(secrets[i]) && SameCondition(secrets[0], secrets[i])
      {
        assert IsLockOn(proofs[i].secret, data);
        assert TagsOf(proofs[i].secret) == TagsOf(proofs[0].secret);
      }
    }
  }

  /** The mint takes the proofs of an accepted token in one swap exactly when their tags are equal. */
  lemma AcceptedShareConditionIff(proofs: seq<Proof>, terms: LockTerms, fee: int, now: int)
    requires Acceptable(proofs, terms, fee, now)
    ensures OneCondition(SecretsOf(proofs)) <==> EqualTags(proofs)
  {
    forall i | 0 <= i < |proofs|
      ensures IsLockOn(proofs[i].secret, Text.Lower(terms.hashHex))
    {
      AcceptedAsksSigAll(proofs[i].secret, i, terms);
    }
    ShareConditionIff(proofs, Text.Lower(terms.hashHex));
  }

  /** Proofs locked by the built lock, each in its own spelling and under its own secret text. */
  predicate IsBuiltToken(proofs: seq<Proof>, terms: LockTerms, forms: seq<Spelling>) {
    && |forms| == |proofs|
    && forall i :: 0 <= i < |proofs| ==> proofs[i].secret == BuiltLock(terms, forms[i]).(raw := proofs[i].secret.raw)
  }

  lemma SpellingsDiffer(key: string)
    ensures Spell(key, AsGiven) != Spell(key, Prefixed)
  {
    assert |"02" + key| == |key| + 2;
  }

  /** A built token shares one condition exactly when the wallet library spelled all its keys alike. */
  lemma BuiltTokenEqualTagsIff(proofs: seq<Proof>, terms: LockTerms, forms: seq<Spelling>)
    requires IsBuiltToken(proofs, terms, forms)
    ensures EqualTags(proofs) <==> forall i :: 0 <= i < |forms| ==> forms[i] == forms[0]
  {
    SpellingsDiffer(terms.providerPubkey);
    forall i | 0 <= i < |proofs|
      ensures TagsOf(proofs[i].secret) == TagsOf(proofs[0].secret) <==> forms[i] == forms[0]
    {
      var tags, first := TagsOf(proofs[i].secret), TagsOf(proofs[0].secret);
      assert tags[0].items[1] == Spell(terms.providerPubkey, forms[i]);
      assert first[0].items[1] == Spell(terms.providerPubkey, forms[0]);
    }
  }

  lemma CheckIgnoresRaw(s: Secret, raw: string, index: nat, terms: LockTerms)
    requires s.WellKnown?
    ensures CheckSecret(s.(raw := raw), index, terms) == CheckSecret(s, index, terms)
  {
  }

  /** The Provider's check passes on lower-case hashes and keys without a parity byte, in either spelling. */
  predicate PlainTerms(terms: LockTerms) {
    && IsNostrKey(terms.providerPubkey) && IsNostrKey(terms.customerPubkey)
    && !HasParityPrefix(terms.providerPubkey) && !HasParityPrefix(terms.customerPubkey)
    && IsHashHex(terms.hashHex) && Text.Lower(terms.hashHex) == terms.hashHex
  }

  lemma BuiltProofPasses(s: Secret, terms: LockTerms, form: Spelling, index: nat)
    requires PlainTerms(terms) && s == BuiltLock(terms, form).(raw := s.raw)
    ensures CheckSecret(s, index, terms).None?
  {
    BuiltLockAcceptedIff(terms, form, index);
    CheckIgnoresRaw(BuiltLock(terms, form), s.raw, index, terms);
  }

  /** Built proofs of the right total are accepted together, whatever their spellings. */
  lemma BuiltTokenAccepted(proofs: seq<Proof>, terms: LockTerms, forms: seq<Spelling>, fee: int, now: int)
    requires PlainTerms(terms) && IsBuiltToken(proofs, terms, forms) && proofs != [] && DistinctSecrets(proofs)
    requires SumAmounts(proofs) - fee == terms.amountSats && terms.locktimeSeconds - now >= MIN_REMAINING_SECONDS
    ensures Acceptable(proofs, terms, fee, now)
  {
    forall i | 0 <= i < |proofs|
      ensures CheckSecret(proofs[i].secret, i, terms).None?
    {
      BuiltProofPasses(proofs[i].secret, terms, forms[i], i);
    }
  }

  lemma PairSum(one: Proof, two: Proof)
    ensures SumAmounts([one, two]) == one.amount + two.amount
  {
    assert [one, two][..1] == [one] && [one][..0] == [];
    assert SumAmounts([one]) == one.amount;
  }

  /** A token of two built proofs in different spellings, paying `part` and the rest. */
  function MixedToken(terms: LockTerms, part: int): seq<Proof> {
    [Proof("", part, BuiltLock(terms, AsGiven).(raw := "a")),
     Proof("", terms.amountSats - part, BuiltLock(terms, Prefixed).(raw := "b"))]
  }

  /** It passes the Provider's check, and no single swap takes both proofs. */
  lemma MixedTokenAcceptedNotRedeemable(terms: LockTerms, part: int, now: int)
    requires PlainTerms(terms) && terms.locktimeSeconds - now >= MIN_REMAINING_SECONDS
    ensures Acceptable(MixedToken(terms, part), terms, 0, now) && !OneCondition(SecretsOf(MixedToken(terms, part)))
  {
    var proofs := MixedToken(terms, part);
    PairSum(proofs[0], proofs[1]);
    MixedTokenIsBuilt(terms, part);
    BuiltTokenAccepted(proofs, terms, [AsGiven, Prefixed], 0, now);
    BuiltTokenEqualTagsIff(proofs, terms, [AsGiven, Prefixed]);
    AcceptedShareConditionIff(proofs, terms, 0, now);
  }

  lemma MixedTokenIsBuilt(terms: LockTerms, part: int)
    ensures IsBuiltToken(MixedToken(terms, part), terms, [AsGiven, Prefixed])
  {
  }

  /** A built lock followed by a second "pubkeys" tag, and a mint that reads that one. */
  function RepeatedKeyLock(terms: LockTerms, other: string): (s: Secret)
    ensures s.WellKnown?
  {
    var built := BuiltLock(terms, AsGiven);
    built.(tags := built.tags + [Strings(["pubkeys", other])])
  }

  function SecondReading(terms: LockTerms, other: string): Conditions {
    Conditions(Some([other]), None, Some([Numerals.Numeral(terms.locktimeSeconds, 10)]),
      Some([terms.customerPubkey]), None)
  }

  lemma RepeatedKeyLockReads(terms: LockTerms, other: string)
    ensures Reads(RepeatedKeyLock(terms, other).tags, SecondReading(terms, other))
  {
    TagNamesDiffer();
    var tags, c := RepeatedKeyLock(terms, other).tags, SecondReading(terms, other);
    assert Named(tags[4], "pubkeys") && tags[4].items[1..] == [other];
    assert Named(tags[1], "locktime") && tags[1].items[1..] == c.locktime.value;
    assert Named(tags[2], "refund") && tags[2].items[1..] == [terms.customerPubkey];
  }

  lemma RepeatedKeyLockAccepted(terms: LockTerms, other: string)
    requires IsNostrKey(terms.providerPubkey) && IsNostrKey(terms.customerPubkey)
    requires terms.hashHex == Text.Lower(terms.hashHex)
    ensures CheckSecret(RepeatedKeyLock(terms, other), 0, terms).None?
  {
    TagNamesDiffer();
    SpellingAccepted(terms.providerPubkey, AsGiven);
    SpellingAccepted(terms.customerPubkey, AsGiven);
    CheckOfLockTags(RepeatedKeyLock(terms, other), 0, terms, terms.providerPubkey,
                    Numerals.Numeral(terms.locktimeSeconds, 10), terms.customerPubkey);
  }

  /**
   With a repeated tag the check says nothing: the lock is accepted for one Provider and a mint that
   reads the second "pubkeys" tag lets any other key take it with the preimage.
   */
  lemma RepeatedTagDefeatsTheCheck(sha: string -> string, terms: LockTerms, other: string, preimage: string)
    requires IsNostrKey(terms.providerPubkey) && IsNostrKey(terms.customerPubkey) && IsNostrKey(other)
    requires sha(preimage) == terms.hashHex == Text.Lower(terms.hashHex) && other != terms.providerPubkey
    ensures CheckSecret(RepeatedKeyLock(terms, other), 0, terms).None?
    ensures Reads(RepeatedKeyLock(terms, other).tags, SecondReading(terms, other))
    ensures Spendable(sha, RepeatedKeyLock(terms, other), SecondReading(terms, other),
        Witness(Some(preimage), {other}), 0)
  {
    RepeatedKeyLockAccepted(terms, other);
    RepeatedKeyLockReads(terms, other);
    SingleKey([other], None, {other});
  }
}
