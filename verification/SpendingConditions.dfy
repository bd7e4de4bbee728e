/**
 Cashu secrets and the mint's spending rules.

 Signatures are symbolic: a witness is the set of x-only keys whose signature over the swap
 verifies, plus an optional hash preimage. `sha` is the mint's SHA-256 on hex text.
 */
module SpendingConditions {
  import opened Wrappers
  import Numerals
  import Text

  /** One entry of a secret's tag list; JSON allows entries that are not lists of strings. */
  datatype Tag = Strings(items: seq<string>) | NotStrings

  /** A proof secret after JSON parsing. `raw` is the text the mint stores as spent. */
  datatype Secret =
    | Malformed(raw: string)
    | Plain(raw: string)
    | WellKnown(raw: string, kind: string, data: Option<string>, tags: seq<Tag>)

  datatype Proof = Proof(keyset: string, amount: int, secret: Secret)

  datatype Witness = Witness(preimage: Option<string>, signers: set<string>)

  predicate Named(tag: Tag, name: string) {
    tag.Strings? && |tag.items| > 0 && tag.items[0] == name
  }

  /** The first tag with a name, as the client looks tags up. */
  function FindTag(tags: seq<Tag>, name: string): (r: Option<seq<string>>)
    ensures r.None? <==> forall i :: 0 <= i < |tags| ==> !Named(tags[i], name)
    ensures r.Some? ==> exists i :: 0 <= i < |tags| && Named(tags[i], name) && tags[i].items == r.value
  {
    if tags == [] then None
    else if Named(tags[0], name) then Some(tags[0].items)
    else
      var r := FindTag(tags[1..], name);
      assert r.Some? ==> exists i :: 0 <= i < |tags[1..]| && Named(tags[1..][i], name) && tags[1..][i].items == r.value;
      assert forall i :: 0 <= i < |tags[1..]| ==> tags[1..][i] == tags[i + 1];
      assert forall i :: 1 <= i < |tags| ==> tags[i] == tags[1..][i - 1];
      r
  }

  ghost predicate UniqueTag(tags: seq<Tag>, name: string) {
    forall i, j :: 0 <= i < |tags| && 0 <= j < |tags| && Named(tags[i], name) && Named(tags[j], name) ==> i == j
  }

  /** What a mint reads for one tag name: the values of some tag of that name, if there is one. */
  ghost predicate ReadsTag(tags: seq<Tag>, name: string, values: Option<seq<string>>) {
    match values
    case None => forall i :: 0 <= i < |tags| ==> !Named(tags[i], name)
    case Some(v) => exists i :: 0 <= i < |tags| && Named(tags[i], name) && tags[i].items[1..] == v
  }

  lemma UniqueTagIsFirst(tags: seq<Tag>, name: string, values: Option<seq<string>>)
    requires UniqueTag(tags, name) && ReadsTag(tags, name, values)
    ensures FindTag(tags, name).None? <==> values.None?
    ensures values.Some? ==> |FindTag(tags, name).value| > 0 && FindTag(tags, name).value[1..] == values.value
  {
  }

  /** A mint's reading of the tags that matter for spending. */
  datatype Conditions = Conditions(
    pubkeys: Option<seq<string>>, nSigs: Option<seq<string>>,
    locktime: Option<seq<string>>, refund: Option<seq<string>>, nSigsRefund: Option<seq<string>>)

  ghost predicate Reads(tags: seq<Tag>, c: Conditions) {
    && ReadsTag(tags, "pubkeys", c.pubkeys)
    && ReadsTag(tags, "n_sigs", c.nSigs)
    && ReadsTag(tags, "locktime", c.locktime)
    && ReadsTag(tags, "refund", c.refund)
    && ReadsTag(tags, "n_sigs_refund", c.nSigsRefund)
  }

  ghost predicate UniqueTags(tags: seq<Tag>) {
    && UniqueTag(tags, "pubkeys")
    && UniqueTag(tags, "n_sigs")
    && UniqueTag(tags, "locktime")
    && UniqueTag(tags, "refund")
    && UniqueTag(tags, "n_sigs_refund")
  }

  /** Drop the parity byte of a 33-byte key. */
  function XOnly(key: string): string {
    if |key| == 66 && (Text.StartsWith(key, "02") || Text.StartsWith(key, "03")) then key[2..] else key
  }

  /** The distinct lock keys that signed. */
  function Signed(keys: seq<string>, signers: set<string>): set<string> {
    set k | k in keys && XOnly(k) in signers :: XOnly(k)
  }

  /** Signatures required by an n_sigs tag; one when absent, unsatisfiable when unreadable. */
  function Required(n: Option<seq<string>>): Option<nat> {
    match n
    case None => Some(1)
    case Some(v) => if |v| > 0 then Numerals.Parse(v[0], 10) else None
  }

  predicate MultiSig(keys: seq<string>, n: Option<seq<string>>, signers: set<string>) {
    Required(n).Some? && |Signed(keys, signers)| >= Required(n).value
  }

  function Locktime(c: Conditions): Option<nat> {
    if c.locktime.Some? && |c.locktime.value| > 0 then Numerals.Parse(c.locktime.value[0], 10) else None
  }

  /** NUT-11: once the mint's clock is past the locktime the refund keys (or anyone) may spend. */
  predicate RefundPath(c: Conditions, w: Witness, now: int) {
    && Locktime(c).Some? && now > Locktime(c).value
    && (c.refund.None? || c.refund.value == [] || MultiSig(c.refund.value, c.nSigsRefund, w.signers))
  }

  /** NUT-14: hash preimage, plus signatures when the lock names keys. */
  predicate HashPath(sha: string -> string, data: string, c: Conditions, w: Witness) {
    && w.preimage.Some? && sha(w.preimage.value) == data
    && (c.pubkeys.None? || MultiSig(c.pubkeys.value, c.nSigs, w.signers))
  }

  /** NUT-11: enough signatures among the data key and the further keys. */
  predicate KeyPath(data: string, c: Conditions, w: Witness) {
    MultiSig([data] + (if c.pubkeys.Some? then c.pubkeys.value else []), c.nSigs, w.signers)
  }

  predicate Spendable(sha: string -> string, s: Secret, c: Conditions, w: Witness, now: int) {
    if s.WellKnown? && s.kind == "HTLC" && s.data.Some? then
      HashPath(sha, s.data.value, c, w) || RefundPath(c, w, now)
    else if s.WellKnown? && s.kind == "P2PK" && s.data.Some? then
      KeyPath(s.data.value, c, w) || RefundPath(c, w, now)
    else
      !s.WellKnown? || (s.kind != "HTLC" && s.kind != "P2PK")
  }

  /** NUT-11: the secret asks for signatures over the whole swap. */
  predicate SigAll(s: Secret) {
    && s.WellKnown? && (s.kind == "HTLC" || s.kind == "P2PK")
    && exists i ::
         0 <= i < |s.tags| && Named(s.tags[i], "sigflag") && |s.tags[i].items| > 1 && s.tags[i].items[1] == "SIG_ALL"
  }

  predicate SameCondition(s: Secret, t: Secret) {
    s.WellKnown? && t.WellKnown? && s.kind == t.kind && s.data == t.data && s.tags == t.tags
  }

  /** NUT-11: when one input of a swap asks for it, all do, under one condition. */
  predicate OneCondition(secrets: seq<Secret>) {
    (exists i :: 0 <= i < |secrets| && SigAll(secrets[i])) ==>
      forall i :: 0 <= i < |secrets| ==> SigAll(secrets[i]) && SameCondition(secrets[0], secrets[i])
  }

  /** One required signature from one key. */
  lemma SingleKey(keys: seq<string>, n: Option<seq<string>>, signers: set<string>)
    requires |keys| == 1 && (n.None? || (|n.value| > 0 && n.value[0] == "1"))
    ensures MultiSig(keys, n, signers) <==> XOnly(keys[0]) in signers
  {
    assert Required(n) == Some(1) by {
      Numerals.NumeralRoundTrip(1, 10);
      assert Numerals.Numeral(1, 10) == "1";
    }
    if XOnly(keys[0]) in signers {
      assert Signed(keys, signers) == {XOnly(keys[0])};
    } else {
      assert Signed(keys, signers) == {};
    }
  }
}
