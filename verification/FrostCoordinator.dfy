/**
 Collecting commitments and shares from peers until the threshold is met. Signing is symbolic: a share names the
 signer, nonce and message it was made with, and the aggregator turns a table into a group signature over a
 message only when every share in it is its own signer's over that message.
 */
module FrostCoordinator {
  import opened Wrappers
  import opened FrostMessages
  import FrostSigners
  import Numerals

  /** `own` is this node's signer index and `identify` how an index is written as a FROST identifier. */
  datatype Config = Config(own: nat, threshold: int, group: string, identify: nat -> string)

  datatype ShareValue = ShareOf(node: nat, nonce: nat, message: Digest) | NoShare

  /** A peer call: an answer, an error status, or a failed request. */
  datatype Answer<T> = Answered(value: T) | Refused | Failed

  /** A configured peer with what it replies in each round; round 1 answers with a session id. */
  datatype Peer = Peer(index: nat, round1: Answer<string>, round2: Answer<ShareValue>)

  /** What comes back from the local signing process, which draws a nonce in round 1, and the peers. */
  datatype Replies = Replies(localRound1: Option<nat>, peers: seq<Peer>, localRound2: bool, aggregates: bool)

  datatype Outcome = Outcome(signature: Signature, participants: seq<nat>)

  /** A signer index as 64 hexadecimal digits. */
  function Identifier(index: nat): string {
    var hex := Numerals.Numeral(index, 16);
    if |hex| < 64 then Numerals.Zeros(64 - |hex|) + hex else hex
  }

  /** Different signers have different identifiers. */
  lemma IdentifierIsInjective(a: nat, b: nat)
    requires Identifier(a) == Identifier(b)
    ensures a == b
  {
    IdentifierValue(a);
    IdentifierValue(b);
  }

  ghost predicate Injective(identify: nat -> string) {
    forall a, b :: identify(a) == identify(b) ==> a == b
  }

  lemma IdentifiersAreInjective()
    ensures Injective(Identifier)
  {
    forall a: nat, b: nat | Identifier(a) == Identifier(b)
      ensures a == b
    {
      IdentifierIsInjective(a, b);
    }
  }

  lemma IdentifierValue(index: nat)
    ensures Numerals.AllDigits(Identifier(index), 16) && Numerals.Value(Identifier(index), 16) == index
  {
    var hex := Numerals.Numeral(index, 16);
    Numerals.NumeralRoundTrip(index, 16);
    if |hex| < 64 {
      Numerals.LeadingZeros(64 - |hex|, hex, 16);
    }
  }

  // ---- Specification ----

  /** The identifiers of this node and of some peers. */
  function Ids(c: Config, peers: seq<Peer>): set<string> {
    if peers == [] then {c.identify(c.own)}
    else Ids(c, peers[..|peers| - 1]) + {c.identify(peers[|peers| - 1].index)}
  }

  /** The peers whose round-1 answer is taken, in order; collection stops once the threshold is met. */
  function Joined(c: Config, peers: seq<Peer>, sofar: seq<Peer>): seq<Peer>
    decreases |peers|
  {
    if peers == [] then sofar
    else if peers[0].index == c.own || peers[0].round1.Refused? then Joined(c, peers[1..], sofar)
    else
      var next := if peers[0].round1.Answered? then sofar + [peers[0]] else sofar;
      if |Ids(c, next)| >= c.threshold then next else Joined(c, peers[1..], next)
  }

  /** The joined peers that also delivered a share. */
  function Delivered(joined: seq<Peer>): seq<Peer> {
    if joined == [] then []
    else
      var last := joined[|joined| - 1];
      Delivered(joined[..|joined| - 1]) + (if last.round2.Answered? then [last] else [])
  }

  function Indices(peers: seq<Peer>): seq<nat> {
    seq(|peers|, i requires 0 <= i < |peers| => peers[i].index)
  }

  /** The table of shares: this node's, then each delivering peer's under its own identifier. */
  function ShareTable(c: Config, local: ShareValue, peers: seq<Peer>): (table: map<string, ShareValue>)
    ensures table.Keys == Ids(c, peers)
  {
    if peers == [] then map[c.identify(c.own) := local]
    else
      var last := peers[|peers| - 1];
      ShareTable(c, local, peers[..|peers| - 1])
        [c.identify(last.index) := if last.round2.Answered? then last.round2.value else NoShare]
  }

  /** Every share in the table is its own signer's, over the message. */
  predicate AllOver(c: Config, message: Digest, shares: map<string, ShareValue>) {
    forall id :: id in shares ==>
      shares[id].ShareOf? && shares[id].message == message && c.identify(shares[id].node) == id
  }

  /** The aggregator's rule; the process itself may still fail. */
  function Aggregate(c: Config, message: Digest, shares: map<string, ShareValue>, aggregates: bool): Option<Signature> {
    if aggregates && |shares| >= c.threshold && AllOver(c, message, shares) then Some(Sig(c.group, message)) else None
  }

  /** The result of a signing session for a message. */
  function Coordinate(c: Config, message: Digest, r: Replies): Option<Outcome> {
    var joined := Joined(c, r.peers, []);
    if r.localRound1.None? then None
    else if |Ids(c, joined)| < c.threshold then None
    else if !r.localRound2 then None
    else if |Ids(c, Delivered(joined))| < c.threshold then None
    else
      var shares := ShareTable(c, ShareOf(c.own, r.localRound1.value, message), Delivered(joined));
      var signature := Aggregate(c, message, shares, r.aggregates);
      if signature.None? then None else Some(Outcome(signature.value, [c.own] + Indices(joined)))
  }

  lemma IdsSnoc(c: Config, peers: seq<Peer>, p: Peer)
    ensures Ids(c, peers + [p]) == Ids(c, peers) + {c.identify(p.index)}
  {
    assert (peers + [p])[..|peers|] == peers;
  }

  lemma KeysSnoc(m: map<string, nat>, k: string, v: nat)
    ensures m[k := v].Keys == m.Keys + {k}
  {
  }

  /** One turn of the collection. */
  lemma JoinedAt(c: Config, peers: seq<Peer>, k: nat, sofar: seq<Peer>)
    requires k < |peers|
    ensures var p, rest := peers[k], peers[k + 1..];
      var next := if p.round1.Answered? then sofar + [p] else sofar;
      Joined(c, peers[k..], sofar)
      == if p.index == c.own || p.round1.Refused? then Joined(c, rest, sofar)
         else if |Ids(c, next)| >= c.threshold then next else Joined(c, rest, next)
  {
    assert peers[k..][0] == peers[k] && peers[k..][1..] == peers[k + 1..];
  }

  /** Round 1 over the peers, filling the table of commitments. */
  method CollectCommitments(
    c: Config, peers: seq<Peer>) returns (commitments: map<string, nat>, participating: seq<Peer>)
    ensures participating == Joined(c, peers, []) && commitments.Keys == Ids(c, participating)
  {
    commitments, participating := map[c.identify(c.own) := c.own], [];
    var k := 0;
    while k < |peers|
      invariant k <= |peers| && commitments.Keys == Ids(c, participating)
      invariant Joined(c, peers, []) == Joined(c, peers[k..], participating)
    {
      var peer := peers[k];
      JoinedAt(c, peers, k, participating);
      if peer.index == c.own || peer.round1.Refused? {
        k := k + 1;
        continue;
      }
      if peer.round1.Answered? {
        IdsSnoc(c, participating, peer);
        KeysSnoc(commitments, c.identify(peer.index), peer.index);
        commitments := commitments[c.identify(peer.index) := peer.index];
        participating := participating + [peer];
      }
      assert commitments.Keys == Ids(c, participating);
      assert |commitments| == |commitments.Keys|;
      if |commitments| >= c.threshold {
        return;
      }
      k := k + 1;
    }
  }

  lemma DeliveredSnoc(joined: seq<Peer>, i: nat)
    requires i < |joined|
    ensures Delivered(joined[..i + 1])
         == if joined[i].round2.Answered? then Delivered(joined[..i]) + [joined[i]] else Delivered(joined[..i])
  {
    assert joined[..i + 1][..i] == joined[..i] && joined[..i + 1][i] == joined[i];
  }

  lemma TableSnoc(c: Config, local: ShareValue, peers: seq<Peer>, p: Peer)
    requires p.round2.Answered?
    ensures ShareTable(c, local, peers + [p]) == ShareTable(c, local, peers)[c.identify(p.index) := p.round2.value]
  {
    assert (peers + [p])[..|peers|] == peers;
  }

  /** Round 2 over the participating peers, filling the table of shares. */
  method CollectShares(c: Config, local: ShareValue, participating: seq<Peer>) returns (shares: map<string, ShareValue>)
    ensures shares == ShareTable(c, local, Delivered(participating))
  {
    shares := map[c.identify(c.own) := local];
    for i := 0 to |participating|
      invariant shares == ShareTable(c, local, Delivered(participating[..i]))
    {
      DeliveredSnoc(participating, i);
      var peer := participating[i];
      if peer.round2.Answered? {
        TableSnoc(c, local, Delivered(participating[..i]), peer);
        shares := shares[c.identify(peer.index) := peer.round2.value];
      }
    }
    assert participating[..|participating|] == participating;
  }

  /** The session as the coordinator runs it. */
  method CoordinateSigning(c: Config, message: Digest, r: Replies) returns (outcome: Option<Outcome>)
    ensures outcome == Coordinate(c, message, r)
  {
    if r.localRound1.None? {
      return None;
    }
    var commitments, participating := CollectCommitments(c, r.peers);
    assert |commitments| == |commitments.Keys|;
    if |commitments| < c.threshold || !r.localRound2 {
      return None;
    }
    var shares := CollectShares(c, ShareOf(c.own, r.localRound1.value, message), participating);
    assert |shares| == |shares.Keys|;
    if |shares| < c.threshold {
      return None;
    }
    var signature := Aggregate(c, message, shares, r.aggregates);
    if signature.None? {
      return None;
    }
    return Some(Outcome(signature.value, [c.own] + Indices(participating)));
  }

  // ---- Main results ----

  predicate DistinctPeers(peers: seq<Peer>) {
    forall i, j :: 0 <= i < j < |peers| ==> peers[i].index != peers[j].index
  }

  predicate Absent(peers: seq<Peer>, index: nat) { forall i :: 0 <= i < |peers| ==> peers[i].index != index }

  predicate AllAnswered(peers: seq<Peer>) { forall i :: 0 <= i < |peers| ==> peers[i].round1.Answered? }

  /** Distinct peers, none of them this node, each with a taken answer. */
  predicate Signers(c: Config, peers: seq<Peer>) {
    DistinctPeers(peers) && Absent(peers, c.own) && AllAnswered(peers)
  }

  lemma {:induction false} NotAmong(c: Config, peers: seq<Peer>, index: nat)
    requires Injective(c.identify) && index != c.own && Absent(peers, index)
    ensures c.identify(index) !in Ids(c, peers)
  {
    if peers != [] {
      NotAmong(c, peers[..|peers| - 1], index);
    }
  }

  lemma {:induction false} IdsCount(c: Config, peers: seq<Peer>)
    requires Injective(c.identify) && DistinctPeers(peers) && Absent(peers, c.own)
    ensures |Ids(c, peers)| == |peers| + 1
  {
    if peers != [] {
      IdsCount(c, peers[..|peers| - 1]);
      NotAmong(c, peers[..|peers| - 1], peers[|peers| - 1].index);
    }
  }

  lemma SignersSnoc(c: Config, peers: seq<Peer>, x: Peer)
    requires Signers(c, peers) && x.index != c.own && x.round1.Answered? && Absent(peers, x.index)
    ensures Signers(c, peers + [x])
  {
  }

  /** No index occurs on both sides. */
  predicate Apart(a: seq<Peer>, b: seq<Peer>) { forall i :: 0 <= i < |b| ==> Absent(a, b[i].index) }

  lemma ApartTail(a: seq<Peer>, b: seq<Peer>)
    requires b != [] && Apart(a, b) && DistinctPeers(b)
    ensures Apart(a, b[1..]) && Apart(a + [b[0]], b[1..]) && DistinctPeers(b[1..]) && Absent(a, b[0].index)
  {
    forall i | 0 <= i < |b[1..]|
      ensures Absent(a, b[1..][i].index) && Absent(a + [b[0]], b[1..][i].index)
    {
      assert b[1..][i] == b[i + 1];
    }
  }

  lemma {:induction false} JoinedAreSigners(c: Config, peers: seq<Peer>, sofar: seq<Peer>)
    requires Injective(c.identify) && |sofar| + 1 < c.threshold && Signers(c, sofar)
    requires DistinctPeers(peers) && Apart(sofar, peers)
    ensures var r := Joined(c, peers, sofar); Signers(c, r) && |r| + 1 <= c.threshold
    decreases |peers|
  {
    if peers != [] {
      var x := peers[0];
      ApartTail(sofar, peers);
      if x.index == c.own || x.round1.Refused? {
        JoinedAreSigners(c, peers[1..], sofar);
      } else {
        var next := if x.round1.Answered? then sofar + [x] else sofar;
        if x.round1.Answered? {
          SignersSnoc(c, sofar, x);
        }
        IdsCount(c, next);
        if |Ids(c, next)| < c.threshold {
          JoinedAreSigners(c, peers[1..], next);
        }
      }
    }
  }

  lemma {:induction false} JoinedComeFromPeers(c: Config, peers: seq<Peer>, sofar: seq<Peer>)
    ensures forall p :: p in Joined(c, peers, sofar) ==> p in peers || p in sofar
    decreases |peers|
  {
    if peers != [] {
      var x := peers[0];
      var next := if x.index != c.own && x.round1.Answered? then sofar + [x] else sofar;
      JoinedComeFromPeers(c, peers[1..], next);
      JoinedComeFromPeers(c, peers[1..], sofar);
    }
  }

  lemma {:induction false} DeliveredCount(joined: seq<Peer>)
    ensures |Delivered(joined)| <= |joined|
    ensures |Delivered(joined)| == |joined| ==> Delivered(joined) == joined
  {
    if joined != [] {
      DeliveredCount(joined[..|joined| - 1]);
    }
  }

  lemma {:induction false} DeliveredAbsent(joined: seq<Peer>, index: nat)
    requires Absent(joined, index)
    ensures Absent(Delivered(joined), index)
  {
    if joined != [] {
      DeliveredAbsent(joined[..|joined| - 1], index);
    }
  }

  lemma {:induction false} DeliveredAreDistinct(joined: seq<Peer>)
    requires DistinctPeers(joined)
    ensures DistinctPeers(Delivered(joined))
  {
    if joined != [] {
      DeliveredAreDistinct(joined[..|joined| - 1]);
      DeliveredAbsent(joined[..|joined| - 1], joined[|joined| - 1].index);
    }
  }

  lemma {:induction false} DeliveredAnswered(joined: seq<Peer>)
    ensures forall i :: 0 <= i < |Delivered(joined)| ==> Delivered(joined)[i].round2.Answered?
  {
    if joined != [] {
      DeliveredAnswered(joined[..|joined| - 1]);
    }
  }

  /** A successful session reached the threshold twice: with commitments and with shares. */
  lemma SessionFacts(c: Config, message: Digest, r: Replies)
    requires Coordinate(c, message, r).Some?
    ensures var joined := Joined(c, r.peers, []);
      && |Ids(c, joined)| >= c.threshold && |Ids(c, Delivered(joined))| >= c.threshold
      && r.localRound1.Some?
      && AllOver(c, message, ShareTable(c, ShareOf(c.own, r.localRound1.value, message), Delivered(joined)))
      && Coordinate(c, message, r).value == Outcome(Sig(c.group, message), [c.own] + Indices(joined))
  {
  }

  lemma ParticipantsAreDistinct(own: nat, joined: seq<Peer>)
    requires DistinctPeers(joined) && Absent(joined, own)
    ensures var ps := [own] + Indices(joined);
      |ps| == |joined| + 1 && forall i, j :: 0 <= i < j < |ps| ==> ps[i] != ps[j]
  {
  }

  /**
   With a threshold of at least two and distinct peers (whose identifiers then differ), a signature comes from exactly
   threshold distinct signers: the commitments and the shares cover the same signers, and those are the ones reported.
   */
  lemma SignatureHasExactlyThreshold(c: Config, message: Digest, r: Replies)
    requires Injective(c.identify) && DistinctPeers(r.peers) && c.threshold >= 2 && Coordinate(c, message, r).Some?
    ensures Delivered(Joined(c, r.peers, [])) == Joined(c, r.peers, [])
    ensures |Ids(c, Joined(c, r.peers, []))| == c.threshold
    ensures forall p :: p in Joined(c, r.peers, []) ==> p in r.peers && p.round1.Answered? && p.round2.Answered?
    ensures var ps := Coordinate(c, message, r).value.participants;
      && ps == [c.own] + Indices(Joined(c, r.peers, [])) && |ps| == c.threshold
      && forall i, j :: 0 <= i < j < |ps| ==> ps[i] != ps[j]
  {
    var joined := SuccessfulSigners(c, message, r);
    ParticipantsAreDistinct(c.own, joined);
    MembersAnswered(joined);
    JoinedComeFromPeers(c, r.peers, []);
  }

  lemma SuccessfulSigners(c: Config, message: Digest, r: Replies) returns (joined: seq<Peer>)
    requires Injective(c.identify) && DistinctPeers(r.peers) && c.threshold >= 2 && Coordinate(c, message, r).Some?
    ensures joined == Joined(c, r.peers, [])
    ensures Coordinate(c, message, r).value.participants == [c.own] + Indices(joined)
    ensures Delivered(joined) == joined && |joined| + 1 == c.threshold && |Ids(c, joined)| == c.threshold
    ensures Signers(c, joined) && forall i :: 0 <= i < |joined| ==> joined[i].round2.Answered?
  {
    joined := Joined(c, r.peers, []);
    SessionFacts(c, message, r);
    JoinedAreSigners(c, r.peers, []);
    EnoughDelivered(c, joined);
  }

  lemma MembersAnswered(joined: seq<Peer>)
    requires AllAnswered(joined) && forall i :: 0 <= i < |joined| ==> joined[i].round2.Answered?
    ensures forall p :: p in joined ==> p.round1.Answered? && p.round2.Answered?
  {
  }

  /** When both tables reach the threshold and at most threshold signers joined, all of them delivered. */
  lemma EnoughDelivered(c: Config, joined: seq<Peer>)
    requires Injective(c.identify) && Signers(c, joined) && |joined| + 1 <= c.threshold
    requires |Ids(c, Delivered(joined))| >= c.threshold
    ensures Delivered(joined) == joined && |joined| + 1 == c.threshold && |Ids(c, joined)| == c.threshold
    ensures forall i :: 0 <= i < |joined| ==> joined[i].round2.Answered?
  {
    DeliveredCount(joined);
    DeliveredAreDistinct(joined);
    DeliveredAbsent(joined, c.own);
    DeliveredAnswered(joined);
    IdsCount(c, Delivered(joined));
    IdsCount(c, joined);
  }

  /** With a threshold of one, a peer can be reported as participating although it delivered no share. */
  lemma ThresholdOneOverReports(c: Config, message: Digest, p: Peer, nonce: nat)
    requires Injective(c.identify) && c.threshold == 1 && p.index != c.own && p.round1.Answered? && p.round2.Failed?
    ensures Coordinate(c, message, Replies(Some(nonce), [p], true, true))
         == Some(Outcome(Sig(c.group, message), [c.own] + Indices([p])))
    ensures Delivered(Joined(c, [p], [])) == []
  {
    JoinsAlone(c, p);
    DeliveredNone(p);
    IdsCount(c, []);
    IdsCount(c, [p]);
  }

  lemma JoinsAlone(c: Config, p: Peer)
    requires Injective(c.identify) && c.threshold == 1 && p.index != c.own && p.round1.Answered?
    ensures Joined(c, [p], []) == [p]
  {
    IdsCount(c, [p]);
    JoinedAt(c, [p], 0, []);
    assert [p][0..] == [p] && [] + [p] == [p];
  }

  lemma DeliveredNone(p: Peer)
    requires !p.round2.Answered?
    ensures Delivered([p]) == []
  {
    assert [p][..0] == [];
  }

  // ---- What stands behind a signature ----

  lemma {:induction false} TableHas(c: Config, local: ShareValue, peers: seq<Peer>, i: nat)
    requires Injective(c.identify) && DistinctPeers(peers) && i < |peers| && peers[i].round2.Answered?
    ensures c.identify(peers[i].index) in ShareTable(c, local, peers)
    ensures ShareTable(c, local, peers)[c.identify(peers[i].index)] == peers[i].round2.value
  {
    var n := |peers| - 1;
    if i < n {
      TableHas(c, local, peers[..n], i);
      assert peers[i].index != peers[n].index;
    }
  }

  lemma ShareIsOwn(c: Config, message: Digest, shares: map<string, ShareValue>, index: nat)
    requires Injective(c.identify) && AllOver(c, message, shares) && c.identify(index) in shares
    ensures var share := shares[c.identify(index)]; share.ShareOf? && share.node == index && share.message == message
  {
  }

  lemma JoinedDelivered(c: Config, message: Digest, local: ShareValue, joined: seq<Peer>, k: nat)
    requires Injective(c.identify) && DistinctPeers(joined) && k < |joined| && joined[k].round2.Answered?
    requires AllOver(c, message, ShareTable(c, local, joined))
    ensures var share := joined[k].round2.value;
      share.ShareOf? && share.node == joined[k].index && share.message == message
  {
    TableHas(c, local, joined, k);
    ShareIsOwn(c, message, ShareTable(c, local, joined), joined[k].index);
  }

  /** Each reported participant after this node is a configured peer that delivered its own share over the message. */
  lemma ParticipantDelivered(c: Config, message: Digest, r: Replies, i: nat) returns (p: Peer)
    requires Injective(c.identify) && DistinctPeers(r.peers) && c.threshold >= 2 && Coordinate(c, message, r).Some?
    requires 0 < i < |Coordinate(c, message, r).value.participants|
    ensures p in r.peers && p.index == Coordinate(c, message, r).value.participants[i] && p.round2.Answered?
    ensures p.round2.value.ShareOf? && p.round2.value.node == p.index && p.round2.value.message == message
  {
    var joined, local := SessionShares(c, message, r);
    p := MemberDelivered(c, message, r.peers, local, joined, i - 1);
  }

  lemma MemberDelivered(c: Config, message: Digest, peers: seq<Peer>, local: ShareValue, joined: seq<Peer>, k: nat)
    returns (p: Peer)
    requires Injective(c.identify) && joined == Joined(c, peers, []) && DistinctPeers(joined) && k < |joined|
    requires joined[k].round2.Answered? && AllOver(c, message, ShareTable(c, local, joined))
    ensures p in peers && p.index == ([c.own] + Indices(joined))[k + 1] && p.round2.Answered?
    ensures p.round2.value.ShareOf? && p.round2.value.node == p.index && p.round2.value.message == message
  {
    p := joined[k];
    JoinedDelivered(c, message, local, joined, k);
    ComesFromPeers(c, peers, p);
  }

  lemma SessionShares(c: Config, message: Digest, r: Replies) returns (joined: seq<Peer>, local: ShareValue)
    requires Injective(c.identify) && DistinctPeers(r.peers) && c.threshold >= 2 && Coordinate(c, message, r).Some?
    ensures joined == Joined(c, r.peers, []) && DistinctPeers(joined)
    ensures forall i :: 0 <= i < |joined| ==> joined[i].round2.Answered?
    ensures AllOver(c, message, ShareTable(c, local, joined))
    ensures Coordinate(c, message, r).value.participants == [c.own] + Indices(joined)
  {
    joined := SuccessfulSigners(c, message, r);
    SessionFacts(c, message, r);
    local := ShareOf(c.own, r.localRound1.value, message);
  }

  lemma ComesFromPeers(c: Config, peers: seq<Peer>, p: Peer)
    requires p in Joined(c, peers, [])
    ensures p in peers
  {
    JoinedComeFromPeers(c, peers, []);
  }

  /** Shares cannot be made up: a node's share in a reply is one that node made. */
  ghost predicate SharesAreMade(
    log: seq<FrostSigners.Event>, nodes: map<nat, FrostSigners.NodeKind>, peers: seq<Peer>)
  {
    forall p :: p in peers && p.round2.Answered? && p.round2.value.ShareOf? && p.round2.value.node in nodes ==>
      FrostSigners.Share(p.round2.value.node, p.round2.value.nonce, p.round2.value.message) in log
  }

  /** The node made a share over the message, in a session it opened after its own verification of the requirement. */
  ghost predicate VerifiedAndShared(
    decode: Decoder, kind: FrostSigners.NodeKind, log: seq<FrostSigners.Event>, node: nat, message: Digest,
    call: FrostSigners.Round1)
  {
    && (exists nonce :: FrostSigners.Share(node, nonce, message) in log)
    && call.node == node && call.message == message
    && FrostSigners.Verified(node, call.req, call.evidence) in log
    && (kind.Routes? ==> IsAllowed(decode, message, call.req, call.token, kind.group))
  }

  /**
   Every other signer behind a signature that runs the signer software made its own share over the very message,
   after verifying a requirement itself, in every run of the signer nodes; on the routes that requirement allows
   the message.
   */
  lemma EveryParticipantVerified(
    decode: Decoder, nodes: map<nat, FrostSigners.NodeKind>, actions: seq<FrostSigners.Action>,
    c: Config, message: Digest, r: Replies, i: nat) returns (call: FrostSigners.Round1)
    requires Injective(c.identify) && DistinctPeers(r.peers) && c.threshold >= 2 && Coordinate(c, message, r).Some?
    requires SharesAreMade(FrostSigners.Exec(decode, FrostSigners.Init(nodes), actions).log, nodes, r.peers)
    requires 0 < i < |Coordinate(c, message, r).value.participants|
    requires Coordinate(c, message, r).value.participants[i] in nodes
    ensures var p := Coordinate(c, message, r).value.participants[i];
      VerifiedAndShared(decode, nodes[p],
        FrostSigners.Exec(decode, FrostSigners.Init(nodes), actions).log, p, message, call)
  {
    var peer := ParticipantDelivered(c, message, r, i);
    call := ShareWasVerified(decode, nodes, actions, peer.index, peer.round2.value.nonce, message);
  }

  lemma ShareWasVerified(
    decode: Decoder, nodes: map<nat, FrostSigners.NodeKind>, actions: seq<FrostSigners.Action>,
    node: nat, nonce: nat, message: Digest) returns (call: FrostSigners.Round1)
    requires node in nodes
    requires var log := FrostSigners.Exec(decode, FrostSigners.Init(nodes), actions).log;
      FrostSigners.Share(node, nonce, message) in log
    ensures VerifiedAndShared(decode, nodes[node],
        FrostSigners.Exec(decode, FrostSigners.Init(nodes), actions).log, node, message, call)
  {
    var log := FrostSigners.Exec(decode, FrostSigners.Init(nodes), actions).log;
    var k :| 0 <= k < |log| && log[k] == FrostSigners.Share(node, nonce, message);
    var i, j := FrostSigners.ShareIsBoundToVerification(decode, nodes, actions, k);
    call := log[j].call;
    assert log[i] in log && log[k] in log;
  }
}
