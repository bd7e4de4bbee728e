/** Exactly when a successful escrow submission carries its settlement, over every interleaved run. */
module QueryArtifacts {
  import opened Wrappers
  import opened Query
  import opened Quorum
  import opened QueryMachine
  import opened QuerySafety

  /** Nothing was read from the preimage store, and no signature reply came, for this call. */
  predicate NoReply(log: seq<Event>, t: nat) {
    forall i: nat :: i < |log| && (log[i].Read? || log[i].Replied?) ==> log[i].task != t
  }

  predicate NotSigned(log: seq<Event>, t: nat) {
    forall i: nat :: i < |log| && log[i].Replied? ==> log[i].task != t
  }

  /** A hash lock with a hash, a preimage port, and a non-empty preimage still stored when this call read it. */
  ghost predicate PreimageReady(ports: Ports, past: seq<Event>, t: nat, id: string) {
    && ports.preimages
    && exists hash: string :: hash != "" && SettledBy(past, id, Htlc(hash)) && Read(t, hash, true) in past
  }

  /** A FROST lock, a signature port, and signatures in its reply to this call. */
  ghost predicate SignaturesReady(ports: Ports, past: seq<Event>, t: nat, id: string) {
    ports.frost && Replied(t, true) in past && exists group: string :: SettledBy(past, id, Frost(group))
  }

  ghost predicate Exact(ports: Ports, past: seq<Event>, t: nat, id: string, o: Outcome) {
    o.ok ==>
      && (o.preimage.Some? <==> PreimageReady(ports, past, t, id))
      && (o.signature.Some? <==> SignaturesReady(ports, past, t, id))
  }

  ghost predicate ExactAt(ports: Ports, log: seq<Event>, k: nat)
    requires k < |log|
  {
    log[k].Returned? ==> Exact(ports, log[..k], log[k].task, log[k].id, log[k].outcome)
  }

  ghost predicate LogExact(ports: Ports, log: seq<Event>) { forall k: nat :: k < |log| ==> ExactAt(ports, log, k) }

  predicate Prepared(ports: Ports, log: seq<Event>, t: nat, task: Task) {
    match task
    case AwaitRead(_, hash) => hash != "" && ports.preimages && NoReply(log, t)
    case AwaitDelete(_, hash, _) => hash != "" && ports.preimages && Read(t, hash, true) in log && NotSigned(log, t)
    case AwaitSignature(_, _) => ports.frost && NoReply(log, t)
    case _ => NoReply(log, t)
  }

  predicate AllPrepared(ports: Ports, s: State) { forall t :: t in s.tasks ==> Prepared(ports, s.log, t, s.tasks[t]) }

  predicate RepliesOld(s: State) {
    forall i: nat :: i < |s.log| && (s.log[i].Read? || s.log[i].Replied?) ==> s.log[i].task < s.next
  }

  ghost predicate Ready(ports: Ports, s: State) { LogExact(ports, s.log) && AllPrepared(ports, s) && RepliesOld(s) }

  // ---- Steps that neither read, nor are replied to, nor succeed ----

  predicate Harmless(e: Event) { !e.Read? && !e.Replied? && !(e.Returned? && e.outcome.ok) }

  predicate Early(task: Task) { task.AwaitAmount? || task.AwaitLock? || task.AwaitSimple? || task.AwaitVerdict? }

  predicate HarmlessLog(log: seq<Event>, longer: seq<Event>) {
    log <= longer && forall k :: |log| <= k < |longer| ==> Harmless(longer[k])
  }

  predicate EarlyTasks(s: State, r: State) {
    s.next <= r.next && forall u :: u in r.tasks ==>
      || (u in s.tasks && (r.tasks[u] == s.tasks[u] || (Early(s.tasks[u]) && Early(r.tasks[u]))))
      || (s.next <= u < r.next && Early(r.tasks[u]))
  }

  lemma HarmlessKeepsExact(ports: Ports, log: seq<Event>, longer: seq<Event>)
    requires LogExact(ports, log) && HarmlessLog(log, longer)
    ensures LogExact(ports, longer)
  {
    forall k: nat | k < |longer|
      ensures ExactAt(ports, longer, k)
    {
      if k < |log| {
        assert ExactAt(ports, log, k);
        assert longer[..k] == log[..k];
      }
    }
  }

  lemma HarmlessNoReply(log: seq<Event>, longer: seq<Event>, t: nat)
    requires HarmlessLog(log, longer)
    ensures NoReply(log, t) ==> NoReply(longer, t)
    ensures NotSigned(log, t) ==> NotSigned(longer, t)
  {
  }

  lemma HarmlessPrepared(ports: Ports, log: seq<Event>, longer: seq<Event>, t: nat, task: Task)
    requires HarmlessLog(log, longer) && Prepared(ports, log, t, task)
    ensures Prepared(ports, longer, t, task)
  {
    HarmlessNoReply(log, longer, t);
  }

  lemma HarmlessKeepsReady(ports: Ports, s: State, r: State)
    requires Ready(ports, s) && HarmlessLog(s.log, r.log) && EarlyTasks(s, r)
    ensures Ready(ports, r)
  {
    HarmlessKeepsExact(ports, s.log, r.log);
    forall u | u in r.tasks
      ensures Prepared(ports, r.log, u, r.tasks[u])
    {
      if u in s.tasks {
        assert Prepared(ports, s.log, u, s.tasks[u]);
        HarmlessPrepared(ports, s.log, r.log, u, s.tasks[u]);
      } else {
        HarmlessNoReply(s.log, r.log, u);
      }
    }
  }

  lemma WriteIsHarmless(s: State, q: Record)
    ensures HarmlessLog(s.log, Write(s, q).log) && Write(s, q).tasks == s.tasks && Write(s, q).next == s.next
  {
  }

  lemma SelectionIsHarmless(s: State, q: Record, provider: string, u: Updates)
    ensures var r := CommitSelection(s, q, provider, u);
      HarmlessLog(s.log, r.log) && r.tasks == s.tasks && r.next == s.next
  {
    var r := SelectProvider(q, provider, u);
    if r.Ok? {
      WriteIsHarmless(Log(s, Chosen(q.id, provider)), r.value);
    }
  }

  lemma UpdateKeepsReady(ports: Ports, s: State, a: Action)
    requires Ready(ports, s) && Synchronous(a)
    ensures Ready(ports, Update(s, a))
  {
    if a.id in s.store && Move(s.store[a.id], a).Ok? {
      WriteIsHarmless(s, Move(s.store[a.id], a).value);
      HarmlessKeepsReady(ports, s, Update(s, a));
    }
  }

  lemma BeginSelectKeepsReady(ports: Ports, s: State, q: Record, provider: string, token: Option<string>)
    requires Ready(ports, s)
    ensures Ready(ports, BeginSelect(ports, s, q, provider, token))
  {
    SelectionIsHarmless(s, q, provider, Updates(token, None));
    HarmlessKeepsReady(ports, s, BeginSelect(ports, s, q, provider, token));
  }

  lemma BeginSimpleKeepsReady(ports: Ports, s: State, q: Record, result: string, oracle: Option<string>, now: int)
    requires Ready(ports, s)
    ensures Ready(ports, BeginSimple(s, q, result, oracle, now))
  {
    WriteIsHarmless(s, q.(status := Expired, payment := Cancelled));
    HarmlessKeepsReady(ports, s, BeginSimple(s, q, result, oracle, now));
  }

  lemma BeginEscrowKeepsReady(
    ports: Ports, s: State, q: Record, result: string, provider: string, oracle: Option<string>, now: int)
    requires Ready(ports, s)
    ensures Ready(ports, BeginEscrow(s, q, result, provider, oracle, now))
  {
    var r := RecordResult(q, result, provider, now);
    if r.Ok? {
      WriteIsHarmless(s, r.value);
    }
    HarmlessKeepsReady(ports, s, BeginEscrow(s, q, result, provider, oracle, now));
  }

  lemma StartKeepsReady(ports: Ports, s: State, a: Action)
    requires Ready(ports, s) && Starts(a)
    ensures Ready(ports, Step(ports, s, a))
  {
    if a.id in s.store {
      var q := s.store[a.id];
      match a
      case StartSelect(_, provider, token) => BeginSelectKeepsReady(ports, s, q, provider, token);
      case StartSimple(_, result, oracle, now) => BeginSimpleKeepsReady(ports, s, q, result, oracle, now);
      case StartEscrow(_, result, provider, oracle, now) => BeginEscrowKeepsReady(ports, s, q,
        result, provider, oracle, now);
    } else {
      HarmlessKeepsReady(ports, s, Step(ports, s, a));
    }
  }

  // ---- Resumed calls ----

  lemma EndKeepsReady(ports: Ports, s: State, t: nat)
    requires Ready(ports, s)
    ensures Ready(ports, End(s, t))
  {
    HarmlessKeepsReady(ports, s, End(s, t));
  }

  lemma AmountKeepsReady(ports: Ports, s: State, t: nat, valid: bool, sats: Option<int>)
    requires Ready(ports, s) && t in s.tasks && s.tasks[t].AwaitAmount?
    ensures Ready(ports, ContinueAmount(s, t, s.tasks[t], valid, sats))
  {
    var task := s.tasks[t];
    SelectionIsHarmless(End(s, t), task.q, task.provider, Updates(task.token, Some(sats)));
    HarmlessKeepsReady(ports, s, ContinueAmount(s, t, task, valid, sats));
  }

  lemma SimpleKeepsReady(ports: Ports, s: State, t: nat, answers: seq<bool>, now: int)
    requires Ready(ports, s) && t in s.tasks && s.tasks[t].AwaitSimple? && |answers| == |PanelIds(s.tasks[t].panel)|
    ensures Ready(ports, ContinueSimple(s, t, s.tasks[t], answers, now))
  {
    var task := s.tasks[t];
    var final := Finalize(task.q, Passes(task.panel, answers), Attestations(PanelIds(task.panel), answers));
    WriteIsHarmless(End(s, t), final.(result := Some(task.result), submittedAt := Some(now)));
    HarmlessKeepsReady(ports, s, ContinueSimple(s, t, task, answers, now));
  }

  /** Returning an outcome that is exact for the log so far. */
  lemma ReturnKeepsReady(ports: Ports, s: State, t: nat, id: string, o: Outcome)
    requires Ready(ports, s) && Exact(ports, s.log, t, id, o)
    ensures Ready(ports, Return(s, t, id, o))
  {
    var r := Return(s, t, id, o);
    forall k: nat | k < |r.log|
      ensures ExactAt(ports, r.log, k)
    {
      if k < |s.log| {
        assert ExactAt(ports, s.log, k);
        assert r.log[..k] == s.log[..k];
      } else {
        assert r.log[..k] == s.log;
      }
    }
    forall u | u in r.tasks
      ensures Prepared(ports, r.log, u, r.tasks[u])
    {
      assert Prepared(ports, s.log, u, s.tasks[u]);
    }
  }

  lemma BecomeKeepsReady(ports: Ports, s: State, t: nat, task: Task)
    requires Ready(ports, s) && Prepared(ports, s.log, t, task)
    ensures Ready(ports, Become(s, t, task))
  {
  }

  /** No reply: the call has no settlement to show. */
  lemma NoReplyNothingReady(ports: Ports, log: seq<Event>, t: nat, id: string)
    requires NoReply(log, t)
    ensures !PreimageReady(ports, log, t, id) && !SignaturesReady(ports, log, t, id)
  {
  }

  lemma SettleKeepsReady(ports: Ports, s: State, t: nat, q: Record, passed: bool)
    requires Ready(ports, s) && NoReply(s.log, t)
    ensures Ready(ports, Settle(ports, s, t, q, passed))
  {
    NoReplyNothingReady(ports, s.log, t, q.id);
    if passed && q.escrow.Some? && HasHash(q.escrow.value) && ports.preimages {
      BecomeKeepsReady(ports, s, t, AwaitRead(q.id, q.escrow.value.settlement.hash));
    } else if passed && q.escrow.Some? && q.escrow.value.settlement.Frost? && ports.frost {
      BecomeKeepsReady(ports, s, t, AwaitSignature(q.id, q.escrow.value.settlement.group));
    } else {
      ReturnKeepsReady(ports, s, t, q.id, Outcome(passed, None, None));
    }
  }

  lemma VerdictKeepsReady(ports: Ports, s: State, t: nat, answers: seq<bool>)
    requires Ready(ports, s) && t in s.tasks && s.tasks[t].AwaitVerdict? && |answers| == |PanelIds(s.tasks[t].panel)|
    ensures Ready(ports, ContinueVerdict(ports, s, t, s.tasks[t], answers))
  {
    var task := s.tasks[t];
    var passed := Passes(task.panel, answers);
    var final := Finalize(task.q, passed, Attestations(PanelIds(task.panel), answers));
    var logged := Log(s, Verified(t, task.q.id, task.submitter, task.panel, answers));
    WriteIsHarmless(logged, final);
    var w := Write(logged, final);
    assert HarmlessLog(s.log, w.log);
    HarmlessKeepsReady(ports, s, w);
    assert Prepared(ports, w.log, t, w.tasks[t]);
    SettleKeepsReady(ports, w, t, final, passed);
  }

  /** A reply to one call, logged: other calls stay prepared. */
  lemma ReplyKeepsOthers(ports: Ports, s: State, e: Event, t: nat)
    requires Ready(ports, s) && (e.Read? || e.Replied?) && e.task == t && t in s.tasks && t < s.next
    ensures Ready(ports, End(Log(s, e), t))
  {
    var r := End(Log(s, e), t);
    forall k: nat | k < |r.log|
      ensures ExactAt(ports, r.log, k)
    {
      if k < |s.log| {
        assert ExactAt(ports, s.log, k);
        assert r.log[..k] == s.log[..k];
      }
    }
    forall u | u in r.tasks
      ensures Prepared(ports, r.log, u, r.tasks[u])
    {
      assert Prepared(ports, s.log, u, s.tasks[u]);
    }
  }

  lemma AfterEnd(s: State, t: nat, task: Task)
    ensures Become(End(s, t), t, task) == Become(s, t, task)
    ensures End(End(s, t), t) == End(s, t)
  {
    assert (s.tasks - {t})[t := task] == s.tasks[t := task];
  }

  lemma ReadKeepsReady(ports: Ports, s: State, t: nat)
    requires Inv(s) && Ready(ports, s) && t in s.tasks && s.tasks[t].AwaitRead?
    ensures Ready(ports, ContinueRead(s, t, s.tasks[t]))
  {
    var task := s.tasks[t];
    assert Prepared(ports, s.log, t, task);
    var found := Stored(s, task.hash);
    var e := Read(t, task.hash, found);
    ReplyKeepsOthers(ports, s, e, t);
    var r := End(Log(s, e), t);
    if found {
      var next := AwaitDelete(task.id, task.hash, s.preimages[task.hash]);
      assert r.log[|s.log|] == e;
      BecomeKeepsReady(ports, r, t, next);
      AfterEnd(Log(s, e), t, next);
    } else {
      NothingFound(ports, s.log, t, task.hash, task.id);
      ReturnKeepsReady(ports, r, t, task.id, Outcome(true, None, None));
      AfterEnd(Log(s, e), t, task);
    }
  }

  lemma NothingFound(ports: Ports, log: seq<Event>, t: nat, hash: string, id: string)
    requires NoReply(log, t)
    ensures !PreimageReady(ports, log + [Read(t, hash, false)], t, id)
    ensures !SignaturesReady(ports, log + [Read(t, hash, false)], t, id)
  {
    var after := log + [Read(t, hash, false)];
    assert forall h :: Read(t, h, true) !in log;
    assert Replied(t, true) !in log;
    assert forall e :: e in after <==> e in log || e == Read(t, hash, false);
  }

  lemma DeleteKeepsReady(ports: Ports, s: State, t: nat)
    requires Inv(s) && Ready(ports, s) && t in s.tasks && s.tasks[t].AwaitDelete?
    ensures Ready(ports, ContinueDelete(s, t, s.tasks[t]))
  {
    var task := s.tasks[t];
    assert Prepared(ports, s.log, t, task) && TaskOk(s.log, t, task);
    assert PreimageReady(ports, s.log, t, task.id);
    assert !SignaturesReady(ports, s.log, t, task.id);
    ReturnKeepsReady(ports, s.(preimages := s.preimages - {task.hash}), t, task.id,
      Outcome(true, Some(task.preimage), None));
  }

  lemma RepliedExactly(ports: Ports, log: seq<Event>, t: nat, id: string, group: string, signed: bool)
    requires ports.frost && NoReply(log, t) && SettledBy(log, id, Frost(group))
    ensures SignaturesReady(ports, log + [Replied(t, signed)], t, id) <==> signed
    ensures !PreimageReady(ports, log + [Replied(t, signed)], t, id)
  {
    var e := Replied(t, signed);
    SettledGrows(log, e, id, Frost(group));
    assert Replied(t, true) !in log;
    assert forall h :: Read(t, h, true) !in log;
    assert forall f :: f in log + [e] <==> f in log || f == e;
  }

  lemma SignatureKeepsReady(ports: Ports, s: State, t: nat, signatures: Option<seq<string>>)
    requires Inv(s) && Ready(ports, s) && t in s.tasks && s.tasks[t].AwaitSignature?
    ensures Ready(ports, ContinueSignature(s, t, s.tasks[t], signatures))
  {
    var task := s.tasks[t];
    assert Prepared(ports, s.log, t, task) && TaskOk(s.log, t, task);
    var e := Replied(t, signatures.Some?);
    ReplyKeepsOthers(ports, s, e, t);
    RepliedExactly(ports, s.log, t, task.id, task.group, signatures.Some?);
    ReturnKeepsReady(ports, End(Log(s, e), t), t, task.id, Outcome(true, None, signatures));
    AfterEnd(Log(s, e), t, task);
  }

  lemma ContinueKeepsReady(ports: Ports, s: State, t: nat, reply: Reply, now: int)
    requires Inv(s) && Ready(ports, s) && t in s.tasks
    ensures Ready(ports, Continue(ports, s, t, s.tasks[t], reply, now))
  {
    var task := s.tasks[t];
    EndKeepsReady(ports, s, t);
    if reply.Throws? {
      if task.AwaitSignature? {
        SignatureKeepsReady(ports, s, t, None);
      }
    } else {
      match task
      case AwaitAmount(_, _, _) =>
        if reply.Amount? {
          AmountKeepsReady(ports, s, t, reply.valid, reply.sats);
        }
      case AwaitLock(q, provider, u) =>
        SelectionIsHarmless(End(s, t), q, provider, u);
        HarmlessKeepsReady(ports, End(s, t), CommitSelection(End(s, t), q, provider, u));
      case AwaitSimple(_, _, panel) =>
        if reply.Answers? && |reply.answers| == |PanelIds(panel)| {
          SimpleKeepsReady(ports, s, t, reply.answers, now);
        }
      case AwaitVerdict(_, _, panel) =>
        if reply.Answers? && |reply.answers| == |PanelIds(panel)| {
          VerdictKeepsReady(ports, s, t, reply.answers);
        }
      case AwaitRead(_, _) => ReadKeepsReady(ports, s, t);
      case AwaitDelete(_, _, _) => DeleteKeepsReady(ports, s, t);
      case AwaitSignature(_, _) =>
        if reply.Signatures? {
          SignatureKeepsReady(ports, s, t, reply.signatures);
        }
    }
  }

  // ---- Every run ----

  lemma StepKeepsReady(ports: Ports, s: State, a: Action)
    requires Inv(s) && Ready(ports, s)
    ensures Ready(ports, Step(ports, s, a))
  {
    if a.Resume? {
      if a.task in s.tasks {
        ContinueKeepsReady(ports, s, a.task, a.reply, a.now);
      }
    } else if Starts(a) {
      StartKeepsReady(ports, s, a);
    } else if Synchronous(a) {
      UpdateKeepsReady(ports, s, a);
    } else {
      OtherStepsKeepReady(ports, s, a);
    }
  }

  lemma OtherStepsKeepReady(ports: Ports, s: State, a: Action)
    requires Ready(ports, s) && !a.Resume? && !Starts(a) && !Synchronous(a)
    ensures Ready(ports, Step(ports, s, a))
  {
    HarmlessKeepsReady(ports, s, Step(ports, s, a));
  }

  lemma {:induction false} EveryRunIsReady(ports: Ports, actions: seq<Action>)
    ensures Ready(ports, Exec(ports, Init(), actions))
  {
    if actions != [] {
      var front := actions[..|actions| - 1];
      EveryRunIsReady(ports, front);
      EveryRunKeepsInv(ports, front);
      StepKeepsReady(ports, Exec(ports, Init(), front), actions[|actions| - 1]);
    }
  }

  /**
   In every interleaved run, a success carries a preimage exactly when its hash lock has a hash, the preimage port is
   there and a non-empty preimage was still stored when the call read it; it carries signatures exactly when its FROST
   lock's signature port is there and replied with some. So it carries exactly one of them exactly when one of these
   holds.
   */
  lemma SuccessCarriesOneIff(ports: Ports, actions: seq<Action>, k: nat)
    requires k < |Exec(ports, Init(), actions).log| && Exec(ports, Init(), actions).log[k].Returned?
    requires Exec(ports, Init(), actions).log[k].outcome.ok
    ensures var log := Exec(ports, Init(), actions).log;
      var t, id, o := log[k].task, log[k].id, log[k].outcome;
      && (o.preimage.Some? <==> PreimageReady(ports, log[..k], t, id))
      && (o.signature.Some? <==> SignaturesReady(ports, log[..k], t, id))
      && (o.preimage.Some? != o.signature.Some? <==>
            PreimageReady(ports, log[..k], t, id) || SignaturesReady(ports, log[..k], t, id))
  {
    EveryRunIsReady(ports, actions);
    ReleaseSafety(ports, actions, k);
    assert ExactAt(ports, Exec(ports, Init(), actions).log, k);
  }
}
