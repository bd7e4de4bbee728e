/**
 Any number of FROST signer nodes serving round 1 and round 2 concurrently, split at their awaits. A node is
 reached through the HTTP routes or through the in-process signer; the coordinator is whoever sends requests.
 */
module FrostSigners {
  import opened Wrappers
  import opened FrostMessages

  /** Routes derive the allowed messages from the requirement; the in-process signer does not. */
  datatype NodeKind = Routes(group: string) | InProcess

  datatype Session = Session(nonce: nat, message: Digest)

  /** A pending session is stored on its node under a random id. */
  datatype Slot = Slot(node: nat, id: string)

  datatype Round1 = Round1(node: nat, req: Requirement, evidence: string, message: Digest, token: Option<string>)

  datatype Event =
    | Verified(node: nat, req: Requirement, evidence: string)
    | Committed(slot: Slot, nonce: nat, call: Round1)
    | Share(node: nat, nonce: nat, message: Digest)

  datatype Task =
    | Verifying(call: Round1)
    | Drawing(call: Round1)
    | Reverifying(slot: Slot, req: Requirement, evidence: string, message: Digest)
    | Signing(node: nat, session: Session)

  datatype State = State(nodes: map<nat, NodeKind>, pending: map<Slot, Session>, tasks: map<nat, Task>, log: seq<Event>)

  /** `nonce` and `id` are what the signing process and the random generator hand out when a draw completes. */
  datatype Action =
    | StartRound1(task: nat, call: Round1)
    | StartRound2(task: nat, slot: Slot, req: Requirement, evidence: string, message: Digest)
    | Resume(task: nat, ok: bool, nonce: nat, id: string)

  function Init(nodes: map<nat, NodeKind>): State {
    State(nodes, map[], map[], [])
  }

  function SetTask(s: State, id: nat, t: Option<Task>): State {
    s.(tasks := if t.Some? then s.tasks[id := t.value] else s.tasks - {id})
  }

  function Log(s: State, e: Event): State {
    s.(log := s.log + [e])
  }

  /** Round 2 reads and deletes the session in one go; a wrong message still consumes it. */
  function Consume(s: State, task: nat, slot: Slot, message: Digest): State {
    if slot !in s.pending then SetTask(s, task, None)
    else
      var session := s.pending[slot];
      var s1 := s.(pending := s.pending - {slot});
      SetTask(s1, task, if session.message == message then Some(Signing(slot.node, session)) else None)
  }

  predicate MayCommit(decode: Decoder, kind: NodeKind, call: Round1) {
    kind.Routes? ==> IsAllowed(decode, call.message, call.req, call.token, kind.group)
  }

  function OnResume(decode: Decoder, s: State, a: Action): State
    requires a.Resume? && a.task in s.tasks
  {
    match s.tasks[a.task]
    case Verifying(call) =>
      if !a.ok then SetTask(s, a.task, None)
      else
        var s1 := Log(s, Verified(call.node, call.req, call.evidence));
        SetTask(s1, a.task,
          if call.node in s.nodes && MayCommit(decode, s.nodes[call.node], call) then Some(Drawing(call)) else None)
    case Drawing(call) =>
      if !a.ok then SetTask(s, a.task, None)
      else
        var slot := Slot(call.node, a.id);
        SetTask(Log(s.(pending := s.pending[slot := Session(a.nonce, call.message)]),
          Committed(slot, a.nonce, call)), a.task, None)
    case Reverifying(slot, req, evidence, message) =>
      if !a.ok then SetTask(s, a.task, None)
      else Consume(Log(s, Verified(slot.node, req, evidence)), a.task, slot, message)
    case Signing(node, session) =>
      SetTask(if a.ok then Log(s, Share(node, session.nonce, session.message)) else s, a.task, None)
  }

  predicate DrawnNonce(log: seq<Event>, nonce: nat) {
    exists e :: e in log && e.Committed? && e.nonce == nonce
  }

  /** Fresh task ids; a completed draw yields a nonce and a session id never seen before. */
  predicate Enabled(s: State, a: Action) {
    match a
    case StartRound1(t, call) => t !in s.tasks && call.node in s.nodes
    case StartRound2(t, slot, _, _, _) => t !in s.tasks && slot.node in s.nodes
    case Resume(t, ok, nonce, id) =>
      && t in s.tasks
      && (s.tasks[t].Drawing? ==>
            !DrawnNonce(s.log, nonce) && forall slot :: slot in s.pending ==> slot.id != id)
  }

  function Step(decode: Decoder, s: State, a: Action): State {
    if !Enabled(s, a) then s
    else
      match a
      case StartRound1(t, call) => SetTask(s, t, Some(Verifying(call)))
      case StartRound2(t, slot, req, evidence, message) =>
        if s.nodes[slot.node].Routes? then Consume(s, t, slot, message)
        else SetTask(s, t, Some(Reverifying(slot, req, evidence, message)))
      case Resume(_, _, _, _) => OnResume(decode, s, a)
  }

  function Exec(decode: Decoder, s: State, actions: seq<Action>): State {
    if actions == [] then s else Step(decode, Exec(decode, s, actions[..|actions| - 1]), actions[|actions| - 1])
  }

  // ---- What every run keeps ----

  /** Where a nonce can be before it is used: waiting in a session, or being signed with. */
  datatype Place = InSession(slot: Slot) | InFlight(task: nat)

  function NonceAt(s: State, p: Place): Option<Session> {
    match p
    case InSession(slot) => if slot in s.pending then Some(s.pending[slot]) else None
    case InFlight(t) => if t in s.tasks && s.tasks[t].Signing? then Some(s.tasks[t].session) else None
  }

  function NodeAt(s: State, p: Place): nat
    requires NonceAt(s, p).Some?
  {
    match p
    case InSession(slot) => slot.node
    case InFlight(t) => s.tasks[t].node
  }

  /** No nonce is in two places. */
  ghost predicate OnePlace(s: State, p: Place, q: Place) {
    NonceAt(s, p).Some? && NonceAt(s, q).Some? && NonceAt(s, p).value.nonce == NonceAt(s, q).value.nonce ==> p == q
  }

  ghost predicate CommittedIn(log: seq<Event>, node: nat, session: Session) {
    exists e ::
      e in log && e.Committed? && e.slot.node == node && e.nonce == session.nonce && e.call.message == session.message
  }

  ghost predicate Shared(log: seq<Event>, nonce: nat) {
    exists e :: e in log && e.Share? && e.nonce == nonce
  }

  ghost predicate PlaceOk(s: State, p: Place) {
    NonceAt(s, p).Some? ==>
      CommittedIn(s.log, NodeAt(s, p), NonceAt(s, p).value) && !Shared(s.log, NonceAt(s, p).value.nonce)
  }

  /**
   A commitment follows the node's own passing verification; a share follows a commitment to the same message, once.
   */
  ghost predicate Justified(decode: Decoder, nodes: map<nat, NodeKind>, past: seq<Event>, e: Event) {
    match e
    case Verified(_, _, _) => true
    case Committed(slot, nonce, call) =>
      && slot.node == call.node && call.node in nodes
      && Verified(call.node, call.req, call.evidence) in past
      && MayCommit(decode, nodes[call.node], call)
      && !DrawnNonce(past, nonce)
    case Share(node, nonce, message) => CommittedIn(past, node, Session(nonce, message)) && !Shared(past, nonce)
  }

  ghost predicate JustifiedAt(decode: Decoder, nodes: map<nat, NodeKind>, log: seq<Event>, k: nat) {
    k < |log| ==> Justified(decode, nodes, log[..k], log[k])
  }

  ghost predicate TaskOk(decode: Decoder, s: State, t: Task) {
    t.Drawing? ==>
      && t.call.node in s.nodes && MayCommit(decode, s.nodes[t.call.node], t.call)
      && Verified(t.call.node, t.call.req, t.call.evidence) in s.log
  }

  ghost predicate Inv(decode: Decoder, s: State) {
    && (forall k :: JustifiedAt(decode, s.nodes, s.log, k))
    && (forall p, q :: OnePlace(s, p, q))
    && (forall p :: PlaceOk(s, p))
    && (forall t :: t in s.tasks ==> TaskOk(decode, s, s.tasks[t]))
  }

  lemma LogSnoc(decode: Decoder, nodes: map<nat, NodeKind>, log: seq<Event>, e: Event)
    requires (forall k :: JustifiedAt(decode, nodes, log, k)) && Justified(decode, nodes, log, e)
    ensures forall k :: JustifiedAt(decode, nodes, log + [e], k)
  {
    forall k: nat
      ensures JustifiedAt(decode, nodes, log + [e], k)
    {
      assert JustifiedAt(decode, nodes, log, k);
      if k < |log| {
        assert (log + [e])[..k] == log[..k];
      } else if k == |log| {
        assert (log + [e])[..k] == log;
      }
    }
  }

  lemma CommittedGrows(log: seq<Event>, e: Event, node: nat, session: Session)
    requires CommittedIn(log, node, session)
    ensures CommittedIn(log + [e], node, session)
  {
    var f :| f in log && f.Committed? && f.slot.node == node
      && f.nonce == session.nonce && f.call.message == session.message;
    assert f in log + [e];
  }

  lemma SharedGrows(log: seq<Event>, e: Event, nonce: nat)
    ensures Shared(log + [e], nonce) <==> Shared(log, nonce) || (e.Share? && e.nonce == nonce)
  {
    if Shared(log, nonce) {
      var f :| f in log && f.Share? && f.nonce == nonce;
      assert f in log + [e];
    }
    if e.Share? && e.nonce == nonce {
      assert e in log + [e];
    }
  }

  /** An event other than a share of a held nonce leaves every place in order. */
  lemma LogKeepsInv(decode: Decoder, s: State, e: Event)
    requires Inv(decode, s) && Justified(decode, s.nodes, s.log, e)
    requires e.Share? ==> forall p :: NonceAt(s, p).Some? ==> NonceAt(s, p).value.nonce != e.nonce
    ensures Inv(decode, Log(s, e))
  {
    LogSnoc(decode, s.nodes, s.log, e);
    var s1 := Log(s, e);
    forall p
      ensures PlaceOk(s1, p)
    {
      assert PlaceOk(s, p);
      if NonceAt(s, p).Some? {
        CommittedGrows(s.log, e, NodeAt(s, p), NonceAt(s, p).value);
        SharedGrows(s.log, e, NonceAt(s, p).value.nonce);
      }
    }
    forall p, q
      ensures OnePlace(s1, p, q)
    {
      assert OnePlace(s, p, q);
    }
    forall t | t in s.tasks
      ensures TaskOk(decode, s1, s.tasks[t])
    {
      assert TaskOk(decode, s, s.tasks[t]);
    }
  }

  /** Dropping sessions or tasks, and adding tasks that hold no nonce, is harmless. */
  lemma ShrinkKeepsInv(decode: Decoder, s: State, s1: State)
    requires Inv(decode, s) && s1.nodes == s.nodes && s1.log == s.log
    requires forall p :: NonceAt(s1, p).Some? ==> NonceAt(s, p) == NonceAt(s1, p) && NodeAt(s, p) == NodeAt(s1, p)
    requires forall t :: t in s1.tasks ==> TaskOk(decode, s1, s1.tasks[t])
    ensures Inv(decode, s1)
  {
    forall p, q
      ensures OnePlace(s1, p, q)
    {
      assert OnePlace(s, p, q);
    }
    forall p
      ensures PlaceOk(s1, p)
    {
      assert PlaceOk(s, p);
    }
  }

  lemma SetTaskKeepsInv(decode: Decoder, s: State, id: nat, t: Option<Task>)
    requires Inv(decode, s) && (t.Some? ==> !t.value.Signing? && TaskOk(decode, s, t.value))
    ensures Inv(decode, SetTask(s, id, t))
  {
    var s1 := SetTask(s, id, t);
    forall u | u in s1.tasks
      ensures TaskOk(decode, s1, s1.tasks[u])
    {
      assert u in s.tasks ==> TaskOk(decode, s, s.tasks[u]);
    }
    ShrinkKeepsInv(decode, s, s1);
  }

  /** Moving a nonce from its session into signing keeps it in one place. */
  lemma ConsumeKeepsInv(decode: Decoder, s: State, task: nat, slot: Slot, message: Digest)
    requires Inv(decode, s) && (task in s.tasks ==> !s.tasks[task].Signing?)
    ensures Inv(decode, Consume(s, task, slot, message))
  {
    if slot in s.pending {
      var session := s.pending[slot];
      var s0 := s.(pending := s.pending - {slot});
      forall u | u in s0.tasks
        ensures TaskOk(decode, s0, s0.tasks[u])
      {
        assert TaskOk(decode, s, s.tasks[u]);
      }
      ShrinkKeepsInv(decode, s, s0);
      if session.message == message {
        MoveKeepsInv(decode, s, s0, task, slot);
      } else {
        SetTaskKeepsInv(decode, s0, task, None);
      }
    } else {
      SetTaskKeepsInv(decode, s, task, None);
    }
  }

  lemma MoveKeepsInv(decode: Decoder, s: State, s0: State, task: nat, slot: Slot)
    requires Inv(decode, s) && slot in s.pending && s0 == s.(pending := s.pending - {slot}) && Inv(decode, s0)
    requires task in s.tasks ==> !s.tasks[task].Signing?
    ensures Inv(decode, SetTask(s0, task, Some(Signing(slot.node, s.pending[slot]))))
  {
    var s1 := SetTask(s0, task, Some(Signing(slot.node, s.pending[slot])));
    assert PlaceOk(s, InSession(slot));
    forall p
      ensures PlaceOk(s1, p)
    {
      assert PlaceOk(s0, p);
    }
    forall p, q
      ensures OnePlace(s1, p, q)
    {
      assert OnePlace(s0, p, q);
      assert OnePlace(s, p, InSession(slot));
      assert OnePlace(s, InSession(slot), q);
    }
    forall u | u in s1.tasks
      ensures TaskOk(decode, s1, s1.tasks[u])
    {
      assert u != task ==> TaskOk(decode, s0, s0.tasks[u]);
    }
  }

  lemma CommitKeepsInv(decode: Decoder, s: State, slot: Slot, nonce: nat, call: Round1)
    requires Inv(decode, s) && slot !in s.pending && Justified(decode, s.nodes, s.log, Committed(slot, nonce, call))
    ensures Inv(decode, Log(s.(pending := s.pending[slot := Session(nonce, call.message)]),
                            Committed(slot, nonce, call)))
  {
    var e := Committed(slot, nonce, call);
    LogKeepsInv(decode, s, e);
    var s0 := Log(s, e);
    var s1 := s0.(pending := s.pending[slot := Session(nonce, call.message)]);
    assert e in s1.log;
    assert CommittedIn(s1.log, slot.node, Session(nonce, call.message));
    NotYetShared(decode, s, nonce);
    SharedGrows(s.log, e, nonce);
    forall p
      ensures PlaceOk(s1, p)
    {
      assert PlaceOk(s0, p);
    }
    forall p, q
      ensures OnePlace(s1, p, q)
    {
      assert OnePlace(s0, p, q);
      HeldWasDrawn(decode, s, p);
      HeldWasDrawn(decode, s, q);
    }
    forall u | u in s1.tasks
      ensures TaskOk(decode, s1, s1.tasks[u])
    {
      assert TaskOk(decode, s0, s0.tasks[u]);
    }
  }

  lemma HeldWasDrawn(decode: Decoder, s: State, p: Place)
    requires Inv(decode, s)
    ensures NonceAt(s, p).Some? ==> DrawnNonce(s.log, NonceAt(s, p).value.nonce)
  {
    assert PlaceOk(s, p);
  }

  lemma NotYetShared(decode: Decoder, s: State, nonce: nat)
    requires Inv(decode, s) && !DrawnNonce(s.log, nonce)
    ensures !Shared(s.log, nonce)
  {
    forall k | 0 <= k < |s.log| && s.log[k].Share?
      ensures s.log[k].nonce != nonce
    {
      assert JustifiedAt(decode, s.nodes, s.log, k);
      var e :| e in s.log[..k] && e.Committed? && e.nonce == s.log[k].nonce;
      assert e in s.log;
    }
  }

  lemma ShareKeepsInv(decode: Decoder, s: State, id: nat)
    requires Inv(decode, s) && id in s.tasks && s.tasks[id].Signing?
    ensures var session := s.tasks[id].session;
      Inv(decode, SetTask(Log(s, Share(s.tasks[id].node, session.nonce, session.message)), id, None))
  {
    var node, session := s.tasks[id].node, s.tasks[id].session;
    var e := Share(node, session.nonce, session.message);
    assert PlaceOk(s, InFlight(id));
    var s0 := SetTask(s, id, None);
    SetTaskKeepsInv(decode, s, id, None);
    forall p | NonceAt(s0, p).Some?
      ensures NonceAt(s0, p).value.nonce != session.nonce
    {
      assert OnePlace(s, p, InFlight(id));
    }
    LogKeepsInv(decode, s0, e);
  }

  lemma ResumeKeepsInv(decode: Decoder, s: State, a: Action)
    requires Inv(decode, s) && a.Resume? && Enabled(s, a)
    ensures Inv(decode, OnResume(decode, s, a))
  {
    assert TaskOk(decode, s, s.tasks[a.task]);
    if !a.ok {
      SetTaskKeepsInv(decode, s, a.task, None);
    } else {
      match s.tasks[a.task]
      case Verifying(call) =>
        var e := Verified(call.node, call.req, call.evidence);
        LogKeepsInv(decode, s, e);
        assert e in Log(s, e).log;
        SetTaskKeepsInv(decode, Log(s, e), a.task,
          if call.node in s.nodes && MayCommit(decode, s.nodes[call.node], call) then Some(Drawing(call)) else None);
      case Drawing(call) =>
        var slot := Slot(call.node, a.id);
        CommitKeepsInv(decode, s, slot, a.nonce, call);
        SetTaskKeepsInv(decode,
          Log(s.(pending := s.pending[slot := Session(a.nonce, call.message)]),
            Committed(slot, a.nonce, call)), a.task, None);
      case Reverifying(slot, req, evidence, message) =>
        LogKeepsInv(decode, s, Verified(slot.node, req, evidence));
        ConsumeKeepsInv(decode, Log(s, Verified(slot.node, req, evidence)), a.task, slot, message);
      case Signing(_, _) => ShareKeepsInv(decode, s, a.task);
    }
  }

  lemma StepKeepsInv(decode: Decoder, s: State, a: Action)
    requires Inv(decode, s)
    ensures Inv(decode, Step(decode, s, a))
  {
    if Enabled(s, a) {
      match a
      case StartRound1(t, call) => SetTaskKeepsInv(decode, s, t, Some(Verifying(call)));
      case StartRound2(t, slot, req, evidence, message) =>
        if s.nodes[slot.node].Routes? {
          ConsumeKeepsInv(decode, s, t, slot, message);
        } else {
          SetTaskKeepsInv(decode, s, t, Some(Reverifying(slot, req, evidence, message)));
        }
      case Resume(_, _, _, _) => ResumeKeepsInv(decode, s, a);
    }
  }

  lemma StepKeepsNodes(decode: Decoder, s: State, a: Action)
    ensures Step(decode, s, a).nodes == s.nodes
  {
  }

  lemma {:induction false} EveryRunKeepsInv(decode: Decoder, nodes: map<nat, NodeKind>, actions: seq<Action>)
    ensures Inv(decode, Exec(decode, Init(nodes), actions)) && Exec(decode, Init(nodes), actions).nodes == nodes
  {
    if actions != [] {
      var front := actions[..|actions| - 1];
      EveryRunKeepsInv(decode, nodes, front);
      StepKeepsInv(decode, Exec(decode, Init(nodes), front), actions[|actions| - 1]);
      StepKeepsNodes(decode, Exec(decode, Init(nodes), front), actions[|actions| - 1]);
    }
  }

  // ---- Main results ----

  /** In every interleaved run, no nonce produces two signature shares, on one node or on two. */
  lemma NonceSignsOnce(decode: Decoder, nodes: map<nat, NodeKind>, actions: seq<Action>, i: nat, j: nat)
    requires var log := Exec(decode, Init(nodes), actions).log;
      i < |log| && j < |log| && log[i].Share? && log[j].Share? && log[i].nonce == log[j].nonce
    ensures i == j
  {
    EveryRunKeepsInv(decode, nodes, actions);
    var log := Exec(decode, Init(nodes), actions).log;
    assert JustifiedAt(decode, nodes, log, i);
    assert JustifiedAt(decode, nodes, log, j);
    if i < j {
      LaterShareDiffers(decode, nodes, log, i, j);
    } else if j < i {
      LaterShareDiffers(decode, nodes, log, j, i);
    }
  }

  lemma LaterShareDiffers(decode: Decoder, nodes: map<nat, NodeKind>, log: seq<Event>, i: nat, j: nat)
    requires i < j < |log| && log[i].Share? && log[j].Share? && JustifiedAt(decode, nodes, log, j)
    ensures log[i].nonce != log[j].nonce
  {
    assert log[..j][i] == log[i];
  }

  /**
   In every interleaved run, a share is over the message of the same node's round 1, whose requirement that node
   itself verified before; on the routes that message is one the requirement allows.
   */
  lemma ShareIsBoundToVerification(decode: Decoder, nodes: map<nat, NodeKind>, actions: seq<Action>, k: nat)
    returns (i: nat, j: nat)
    requires var log := Exec(decode, Init(nodes), actions).log; k < |log| && log[k].Share?
    ensures var log := Exec(decode, Init(nodes), actions).log;
      && i < j < k && log[j].Committed?
      && log[j].slot.node == log[j].call.node == log[k].node && log[k].node in nodes
      && log[j].nonce == log[k].nonce && log[j].call.message == log[k].message
      && log[i] == Verified(log[k].node, log[j].call.req, log[j].call.evidence)
      && MayCommit(decode, nodes[log[k].node], log[j].call)
  {
    EveryRunKeepsInv(decode, nodes, actions);
    var log := Exec(decode, Init(nodes), actions).log;
    assert JustifiedAt(decode, nodes, log, k);
    var node, session := log[k].node, Session(log[k].nonce, log[k].message);
    var e :| e in log[..k] && e.Committed? && e.slot.node == node
      && e.nonce == session.nonce && e.call.message == session.message;
    j :| 0 <= j < k && log[..k][j] == e;
    i := CommitIsVerified(decode, nodes, actions, j);
  }

  /** A commitment on any node follows that node's own passing verification of the requirement it was given. */
  lemma CommitIsVerified(decode: Decoder, nodes: map<nat, NodeKind>, actions: seq<Action>, j: nat) returns (i: nat)
    requires var log := Exec(decode, Init(nodes), actions).log; j < |log| && log[j].Committed?
    ensures var log := Exec(decode, Init(nodes), actions).log;
      && i < j && log[j].slot.node == log[j].call.node && log[j].call.node in nodes
      && log[i] == Verified(log[j].call.node, log[j].call.req, log[j].call.evidence)
      && MayCommit(decode, nodes[log[j].call.node], log[j].call)
  {
    EveryRunKeepsInv(decode, nodes, actions);
    var log := Exec(decode, Init(nodes), actions).log;
    assert JustifiedAt(decode, nodes, log, j);
    i :| 0 <= i < j && log[..j][i] == Verified(log[j].call.node, log[j].call.req, log[j].call.evidence);
  }
}
