/** What a FROST signer may sign: messages derived from a verified requirement and the token it names. */
module FrostMessages {
  import opened Wrappers
  import opened Sets
  import opened SpendingConditions
  import Numerals
  import Text

  /** SHA-256 as a symbol: different texts have different digests. */
  datatype Digest = Sha(text: string)

  /** A signature is the key and the message it verifies for. */
  datatype Signature = Sig(key: string, message: Digest)

  /** Decoding an encoded token; None when the decoder throws. */
  type Decoder = string -> Option<seq<Proof>>

  /** What a signer verified; the token hash is present for token-bound releases. */
  datatype Requirement = Requirement(id: string, tokenHash: Option<Digest>)

  const SIGN_PREFIX: string := "anchr:sign:"

  function SigningMessage(queryId: string): Digest {
    Sha(SIGN_PREFIX + queryId)
  }

  function ProofMessages(proofs: seq<Proof>): seq<Digest> {
    seq(|proofs|, i requires 0 <= i < |proofs| => Sha(proofs[i].secret.raw))
  }

  // ---- The lock check on one proof ----

  function ToXOnlyLower(key: string): string {
    Text.Lower(XOnly(key))
  }

  /** All keys a secret names: its data, then every value of every "pubkeys" tag. */
  function TagKeys(tags: seq<Tag>): seq<string> {
    if tags == [] then []
    else
      var last := tags[|tags| - 1];
      TagKeys(tags[..|tags| - 1]) + (if Named(last, "pubkeys") then last.items[1..] else [])
  }

  /** The last readable "n_sigs" value; empty when there is none. */
  function LastNSigs(tags: seq<Tag>): string {
    if tags == [] then ""
    else
      var last := tags[|tags| - 1];
      if Named(last, "n_sigs") && |last.items| > 1 then last.items[1] else LastNSigs(tags[..|tags| - 1])
  }

  function LockKeys(s: Secret): seq<string>
    requires s.WellKnown?
  {
    (if s.data.Some? then [s.data.value] else []) + TagKeys(s.tags)
  }

  predicate NamesGroup(s: Secret, group: string) {
    && s.WellKnown? && s.kind == "P2PK"
    && LastNSigs(s.tags) == "2"
    && exists k :: k in LockKeys(s) && ToXOnlyLower(k) == ToXOnlyLower(group)
  }

  /** The scan over the tags: the keys of "pubkeys" tags after the given ones, and the last readable "n_sigs". */
  method ScanTags(tags: seq<Tag>, first: seq<string>) returns (lockPubkeys: seq<string>, nSigs: string)
    ensures lockPubkeys == first + TagKeys(tags) && nSigs == LastNSigs(tags)
  {
    lockPubkeys, nSigs := first, "";
    for i := 0 to |tags|
      invariant lockPubkeys == first + TagKeys(tags[..i]) && nSigs == LastNSigs(tags[..i])
    {
      assert tags[..i + 1][..i] == tags[..i];
      var tag := tags[i];
      if Named(tag, "pubkeys") {
        lockPubkeys := lockPubkeys + tag.items[1..];
      }
      if Named(tag, "n_sigs") && |tag.items| > 1 {
        nSigs := tag.items[1];
      }
    }
    assert tags[..|tags|] == tags;
  }

  method AnyKeyIs(keys: seq<string>, group: string) returns (found: bool)
    ensures found <==> exists k :: k in keys && ToXOnlyLower(k) == ToXOnlyLower(group)
  {
    for i := 0 to |keys|
      invariant forall j :: 0 <= j < i ==> ToXOnlyLower(keys[j]) != ToXOnlyLower(group)
    {
      if ToXOnlyLower(keys[i]) == ToXOnlyLower(group) {
        return true;
      }
    }
    return false;
  }

  /** The check as the signer runs it. */
  method SecretRequiresGroup(s: Secret, group: string) returns (r: bool)
    ensures r <==> NamesGroup(s, group)
  {
    if !s.WellKnown? || s.kind != "P2PK" {
      return false;
    }
    var lockPubkeys, nSigs := ScanTags(s.tags, if s.data.Some? then [s.data.value] else []);
    if nSigs != "2" {
      return false;
    }
    r := AnyKeyIs(lockPubkeys, group);
  }

  predicate TokenMatchesLock(decode: Decoder, token: string, group: string) {
    && decode(token).Some?
    && decode(token).value != []
    && forall i :: 0 <= i < |decode(token).value| ==> NamesGroup(decode(token).value[i].secret, group)
  }

  /** The messages a signer commits to for a requirement it has just verified. */
  predicate IsAllowed(decode: Decoder, message: Digest, req: Requirement, token: Option<string>, group: string) {
    if message == SigningMessage(req.id) then true
    else if token.None? || token.value == "" || req.tokenHash.None? then false
    else if Sha(token.value) != req.tokenHash.value then false
    else if !TokenMatchesLock(decode, token.value, group) then false
    else message in ProofMessages(decode(token.value).value)
  }

  /** JSON text of an array starts with a bracket, possibly after white space. */
  predicate JsonArrayText(raw: string) {
    raw != "" && (raw[0] == '[' || Text.IsSpace(raw[0]))
  }

  lemma InProofMessages(proofs: seq<Proof>, message: Digest)
    ensures message in ProofMessages(proofs) <==> exists i :: 0 <= i < |proofs| && message == Sha(proofs[i].secret.raw)
  {
    if i :| 0 <= i < |proofs| && message == Sha(proofs[i].secret.raw) {
      assert ProofMessages(proofs)[i] == message;
    }
  }

  /**
   An allowed message is exactly the requirement's own signing message or the digest of a proof secret of the one
   token whose hash the requirement carries, every proof of which names the group; never both at once.
   */
  lemma AllowedMeaning(decode: Decoder, message: Digest, req: Requirement, token: Option<string>, group: string)
    requires token.Some? && decode(token.value).Some? ==>
      forall p :: p in decode(token.value).value && p.secret.WellKnown? ==> JsonArrayText(p.secret.raw)
    ensures IsAllowed(decode, message, req, token, group) <==>
      || message == SigningMessage(req.id)
      || (&& token.Some? && token.value != "" && req.tokenHash == Some(Sha(token.value))
          && TokenMatchesLock(decode, token.value, group)
          && exists i ::
               0 <= i < |decode(token.value).value| && message == Sha(decode(token.value).value[i].secret.raw))
    ensures IsAllowed(decode, message, req, token, group) && message != SigningMessage(req.id) ==>
      forall id :: message != SigningMessage(id)
  {
    if token.Some? && TokenMatchesLock(decode, token.value, group) {
      var proofs := decode(token.value).value;
      forall i, id | 0 <= i < |proofs|
        ensures Sha(proofs[i].secret.raw) != SigningMessage(id)
      {
        assert NamesGroup(proofs[i].secret, group) && proofs[i] in proofs;
        assert (SIGN_PREFIX + id)[0] == 'a';
      }
      InProofMessages(proofs, message);
    }
  }

  /** One token hash pins one token: a requirement allows proof messages of a single encoded token. */
  lemma RequirementPinsToken(
    decode: Decoder, req: Requirement, a: Digest, ta: Option<string>, b: Digest, tb: Option<string>, group: string)
    requires IsAllowed(decode, a, req, ta, group) && a != SigningMessage(req.id)
    requires IsAllowed(decode, b, req, tb, group) && b != SigningMessage(req.id)
    ensures ta == tb
  {
  }

  // ---- Does naming the group make its signature necessary? ----

  /** The x-only lock keys other than the group's. */
  function OtherKeys(keys: seq<string>, group: string): set<string> {
    set k | k in keys && XOnly(k) != XOnly(group) :: XOnly(k)
  }

  ghost predicate LowerKeys(keys: seq<string>, group: string) {
    Text.Lower(XOnly(group)) == XOnly(group) && forall k :: k in keys ==> Text.Lower(XOnly(k)) == XOnly(k)
  }

  /** Every spend before the locktime carries the group's signature. */
  ghost predicate GroupNeeded(data: string, c: Conditions, group: string) {
    forall w: Witness :: KeyPath(data, c, w) ==> XOnly(group) in w.signers
  }

  lemma TwoSignatures(n: Option<seq<string>>)
    requires n.Some? && |n.value| > 0 && n.value[0] == "2"
    ensures Required(n) == Some(2)
  {
    Numerals.NumeralRoundTrip(2, 10);
    assert Numerals.Numeral(2, 10) == "2";
  }

  lemma {:induction false} NoKeyTags(tags: seq<Tag>)
    requires forall i :: 0 <= i < |tags| ==> !Named(tags[i], "pubkeys")
    ensures TagKeys(tags) == []
  {
    if tags != [] {
      NoKeyTags(tags[..|tags| - 1]);
    }
  }

  lemma {:induction false} OneKeyTag(tags: seq<Tag>, k: nat)
    requires k < |tags| && Named(tags[k], "pubkeys") && UniqueTag(tags, "pubkeys")
    ensures TagKeys(tags) == tags[k].items[1..]
  {
    var n := |tags| - 1;
    if k == n {
      NoKeyTags(tags[..n]);
    } else {
      OneKeyTag(tags[..n], k);
    }
  }

  lemma TagKeysAreRead(tags: seq<Tag>, values: Option<seq<string>>)
    requires UniqueTag(tags, "pubkeys") && ReadsTag(tags, "pubkeys", values)
    ensures TagKeys(tags) == if values.Some? then values.value else []
  {
    if values.Some? {
      var k :| 0 <= k < |tags| && Named(tags[k], "pubkeys") && tags[k].items[1..] == values.value;
      OneKeyTag(tags, k);
    } else {
      NoKeyTags(tags);
    }
  }

  lemma {:induction false} LastNSigsIsSomewhere(tags: seq<Tag>) returns (k: nat)
    requires LastNSigs(tags) != ""
    ensures k < |tags| && Named(tags[k], "n_sigs") && |tags[k].items| > 1 && tags[k].items[1] == LastNSigs(tags)
  {
    var n := |tags| - 1;
    if Named(tags[n], "n_sigs") && |tags[n].items| > 1 {
      k := n;
    } else {
      k := LastNSigsIsSomewhere(tags[..n]);
    }
  }

  lemma NSigsAreRead(tags: seq<Tag>, values: Option<seq<string>>)
    requires UniqueTag(tags, "n_sigs") && ReadsTag(tags, "n_sigs", values) && LastNSigs(tags) != ""
    ensures values.Some? && |values.value| > 0 && values.value[0] == LastNSigs(tags)
  {
    var k := LastNSigsIsSomewhere(tags);
    var j :| 0 <= j < |tags| && Named(tags[j], "n_sigs") && tags[j].items[1..] == values.value;
  }

  /**
   The check does not by itself make the group necessary: with two further keys in the lock those two can spend
   alone. The group's signature is needed for every key spend exactly when fewer than two other keys are named.
   */
  lemma GroupNeededIff(s: Secret, c: Conditions, group: string)
    requires NamesGroup(s, group) && s.data.Some? && LowerKeys(LockKeys(s), group)
    requires UniqueTags(s.tags) && Reads(s.tags, c)
    ensures GroupNeeded(s.data.value, c, group) <==> |OtherKeys(LockKeys(s), group)| < 2
  {
    var keys, others := LockKeys(s), OtherKeys(LockKeys(s), group);
    TagKeysAreRead(s.tags, c.pubkeys);
    NSigsAreRead(s.tags, c.nSigs);
    TwoSignatures(c.nSigs);
    assert keys == [s.data.value] + (if c.pubkeys.Some? then c.pubkeys.value else []);
    if |others| < 2 {
      forall w: Witness | KeyPath(s.data.value, c, w)
        ensures XOnly(group) in w.signers
      {
        if XOnly(group) !in w.signers {
          assert Signed(keys, w.signers) <= others;
          SubsetIsSmaller(Signed(keys, w.signers), others);
        }
      }
    } else {
      var w := Witness(None, others);
      assert Signed(keys, others) == others;
      assert KeyPath(s.data.value, c, w) && XOnly(group) !in w.signers;
    }
  }

  /** A lock for a Provider and a third key, with the group as a bystander. */
  function BystanderLock(provider: string, third: string, group: string): Secret {
    WellKnown("", "P2PK", Some(provider), [Strings(["pubkeys", third, group]), Strings(["n_sigs", "2"])])
  }

  lemma BystanderKeys(third: string, group: string)
    ensures var tags := [Strings(["pubkeys", third, group]), Strings(["n_sigs", "2"])];
      TagKeys(tags) == [third, group] && LastNSigs(tags) == "2"
  {
    var tags := [Strings(["pubkeys", third, group]), Strings(["n_sigs", "2"])];
    assert "n_sigs" != "pubkeys" by { assert "n_sigs"[0] != "pubkeys"[0]; }
    assert Named(tags[0], "pubkeys") && !Named(tags[1], "pubkeys");
    OneKeyTag(tags, 0);
    assert tags[0].items[1..] == [third, group];
  }

  lemma OthersOfThree(a: string, b: string, group: string)
    requires XOnly(a) != XOnly(group) && XOnly(b) != XOnly(group)
    ensures OtherKeys([a, b, group], group) == {XOnly(a), XOnly(b)}
  {
    var keys := [a, b, group];
    assert keys[0] in keys && keys[1] in keys;
    assert forall k :: k in keys ==> k == a || k == b || k == group;
  }

  /** Such locks pass the check, although two other keys can spend them. */
  lemma BystanderLockPasses(provider: string, third: string, group: string)
    requires XOnly(provider) != XOnly(third) && XOnly(provider) != XOnly(group) && XOnly(third) != XOnly(group)
    ensures NamesGroup(BystanderLock(provider, third, group), group)
    ensures |OtherKeys(LockKeys(BystanderLock(provider, third, group)), group)| == 2
  {
    BystanderKeys(third, group);
    BystanderLockKeys(provider, third, group);
    OthersOfThree(provider, third, group);
  }

  lemma BystanderLockKeys(provider: string, third: string, group: string)
    ensures LockKeys(BystanderLock(provider, third, group)) == [provider, third, group]
    ensures group in LockKeys(BystanderLock(provider, third, group))
  {
    BystanderKeys(third, group);
    assert LockKeys(BystanderLock(provider, third, group)) == [provider] + [third, group];
    assert [provider, third, group][2] == group;
  }
}
