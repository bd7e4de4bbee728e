/** When a stored record can still change: suspended calls write back what they computed from what they read. */
module QueryFinality {
  import opened Wrappers
  import opened Query
  import opened Quorum
  import opened QueryMachine
  import opened QuerySafety

  // ---- Who writes a record ----

  /** The record of this id is as before, present or absent. */
  predicate SameAt(s: State, r: State, id: string) {
    (id in r.store <==> id in s.store) && (id in s.store ==> r.store[id] == s.store[id])
  }

  predicate Writes(task: Task, id: string) {
    (task.AwaitAmount? || task.AwaitLock? || task.AwaitSimple? || task.AwaitVerdict?) && task.q.id == id
  }

  lemma SelectionWritesOwn(s: State, q: Record, provider: string, u: Updates, id: string)
    requires q.id != id
    ensures SameAt(s, CommitSelection(s, q, provider, u), id)
  {
  }

  lemma AmountWritesOwn(s: State, t: nat, task: Task, valid: bool, sats: Option<int>, id: string)
    requires task.AwaitAmount? && task.q.id != id
    ensures SameAt(s, ContinueAmount(s, t, task, valid, sats), id)
  {
    SelectionWritesOwn(End(s, t), task.q, task.provider, Updates(task.token, Some(sats)), id);
  }

  lemma SettleWritesNothing(ports: Ports, s: State, t: nat, q: Record, passed: bool)
    ensures Settle(ports, s, t, q, passed).store == s.store
  {
  }

  lemma VerdictWritesOwn(ports: Ports, s: State, t: nat, task: Task, answers: seq<bool>, id: string)
    requires task.AwaitVerdict? && task.q.id != id && |answers| == |PanelIds(task.panel)|
    ensures SameAt(s, ContinueVerdict(ports, s, t, task, answers), id)
  {
    var passed := Passes(task.panel, answers);
    var final := Finalize(task.q, passed, Attestations(PanelIds(task.panel), answers));
    var w := Write(Log(s, Verified(t, task.q.id, task.submitter, task.panel, answers)), final);
    SettleWritesNothing(ports, w, t, final, passed);
  }

  /** A resumed call writes at most the record it read. */
  lemma ContinueWritesOwn(ports: Ports, s: State, t: nat, task: Task, reply: Reply, now: int, id: string)
    requires !Writes(task, id)
    ensures SameAt(s, Continue(ports, s, t, task, reply, now), id)
  {
    if !reply.Throws? {
      match task
      case AwaitAmount(_, _, _) =>
        if reply.Amount? {
          AmountWritesOwn(s, t, task, reply.valid, reply.sats, id);
        }
      case AwaitLock(q, provider, u) => SelectionWritesOwn(End(s, t), q, provider, u, id);
      case AwaitSimple(_, _, _) =>
      case AwaitVerdict(_, _, panel) =>
        if reply.Answers? && |reply.answers| == |PanelIds(panel)| {
          VerdictWritesOwn(ports, s, t, task, reply.answers, id);
        }
      case _ =>
    }
  }

  lemma TerminalRefusesMoves(q: Record, a: Action)
    requires Terminal(q.status) && Synchronous(a)
    ensures Move(q, a).Err?
  {
  }

  lemma TerminalRefusesStarts(ports: Ports, s: State, q: Record)
    requires Terminal(q.status)
    ensures forall provider, token :: BeginSelect(ports, s, q, provider, token) == s
    ensures forall result, oracle, now :: BeginSimple(s, q, result, oracle, now) == s
    ensures forall result, provider, now :: RecordResult(q, result, provider, now).Err?
  {
  }

  lemma WriteWritesOwn(s: State, q: Record, id: string)
    requires q.id != id
    ensures SameAt(s, Write(s, q), id)
  {
  }

  lemma MoveKeepsId(q: Record, a: Action)
    requires Synchronous(a) && Move(q, a).Ok?
    ensures Move(q, a).value.id == q.id
  {
  }

  lemma UpdateWritesOwn(s: State, a: Action, id: string)
    requires StoreOk(s) && Synchronous(a) && a.id != id
    ensures SameAt(s, Update(s, a), id)
  {
    if a.id in s.store {
      var r := Move(s.store[a.id], a);
      if r.Ok? {
        MoveKeepsId(s.store[a.id], a);
        WriteWritesOwn(s, r.value, id);
      }
    }
  }

  lemma BeginSelectWritesOwn(ports: Ports, s: State, q: Record, provider: string, token: Option<string>, id: string)
    requires q.id != id
    ensures SameAt(s, BeginSelect(ports, s, q, provider, token), id)
  {
    SelectionWritesOwn(s, q, provider, Updates(token, None), id);
  }

  lemma BeginSimpleWritesOwn(s: State, q: Record, result: string, oracle: Option<string>, now: int, id: string)
    requires q.id != id
    ensures SameAt(s, BeginSimple(s, q, result, oracle, now), id)
  {
    WriteWritesOwn(s, q.(status := Expired, payment := Cancelled), id);
  }

  lemma BeginEscrowWritesOwn(
    s: State, q: Record, result: string, provider: string, oracle: Option<string>, now: int, id: string)
    requires q.id != id
    ensures SameAt(s, BeginEscrow(s, q, result, provider, oracle, now), id)
  {
    var r := RecordResult(q, result, provider, now);
    if r.Ok? {
      WriteWritesOwn(s, r.value, id);
    }
  }

  lemma BeginWritesOwn(ports: Ports, s: State, a: Action, id: string)
    requires (a.StartSelect? || a.StartSimple? || a.StartEscrow?) && a.id != id
    requires a.id in s.store ==> s.store[a.id].id == a.id
    ensures SameAt(s, Step(ports, s, a), id)
  {
    if a.id in s.store {
      var q := s.store[a.id];
      match a
      case StartSelect(_, provider, token) => BeginSelectWritesOwn(ports, s, q, provider, token, id);
      case StartSimple(_, result, oracle, now) => BeginSimpleWritesOwn(s, q, result, oracle, now, id);
      case StartEscrow(_, result, provider, oracle, now) => BeginEscrowWritesOwn(s, q,
        result, provider, oracle, now, id);
    }
  }

  /** No step but a resumed call changes a terminal record, other than by deleting it. */
  lemma FreshStepKeepsTerminal(ports: Ports, s: State, a: Action, id: string)
    requires StoreOk(s) && id in s.used && !a.Resume?
    requires id in s.store ==> Terminal(s.store[id].status)
    ensures var after := Step(ports, s, a); id in after.store ==> id in s.store && after.store[id] == s.store[id]
  {
    if Synchronous(a) {
      if a.id != id {
        UpdateWritesOwn(s, a, id);
      } else if id in s.store {
        TerminalRefusesMoves(s.store[id], a);
      }
    } else if a.StartSelect? || a.StartSimple? || a.StartEscrow? {
      if a.id != id {
        BeginWritesOwn(ports, s, a, id);
      } else if id in s.store {
        TerminalRefusesStarts(ports, s, s.store[id]);
      }
    }
  }

  // ---- Which suspended calls a step leaves ----

  /** What a resumed call may suspend as next, besides staying as it is. */
  predicate Follows(before: Task, after: Task) {
    || (before.AwaitAmount? && after.AwaitLock? && after.q == before.q)
    || after.AwaitRead? || after.AwaitDelete? || after.AwaitSignature?
  }

  /** Every suspended call was there before, or is the resumed one moved on. */
  predicate Carried(s: State, r: State, t: nat) {
    && r.used == s.used && t in s.tasks
    && forall u :: u in r.tasks ==>
         u in s.tasks && (r.tasks[u] == s.tasks[u] || (u == t && Follows(s.tasks[t], r.tasks[u])))
  }

  lemma WriteTasks(s: State, q: Record)
    ensures Write(s, q).tasks == s.tasks && Write(s, q).used == s.used
  {
  }

  lemma SelectionTasks(s: State, q: Record, provider: string, u: Updates)
    ensures CommitSelection(s, q, provider, u).tasks == s.tasks && CommitSelection(s, q, provider, u).used == s.used
  {
  }

  lemma AmountTasks(s: State, t: nat, valid: bool, sats: Option<int>)
    requires t in s.tasks && s.tasks[t].AwaitAmount?
    ensures Carried(s, ContinueAmount(s, t, s.tasks[t], valid, sats), t)
  {
    var task := s.tasks[t];
    SelectionTasks(End(s, t), task.q, task.provider, Updates(task.token, Some(sats)));
  }

  lemma SettleTasks(ports: Ports, s: State, t: nat, q: Record, passed: bool)
    requires t in s.tasks
    ensures Carried(s, Settle(ports, s, t, q, passed), t)
  {
  }

  lemma VerdictTasks(ports: Ports, s: State, t: nat, answers: seq<bool>)
    requires t in s.tasks && s.tasks[t].AwaitVerdict? && |answers| == |PanelIds(s.tasks[t].panel)|
    ensures Carried(s, ContinueVerdict(ports, s, t, s.tasks[t], answers), t)
  {
    var task := s.tasks[t];
    var passed := Passes(task.panel, answers);
    var final := Finalize(task.q, passed, Attestations(PanelIds(task.panel), answers));
    var logged := Log(s, Verified(t, task.q.id, task.submitter, task.panel, answers));
    WriteTasks(logged, final);
    SettleTasks(ports, Write(logged, final), t, final, passed);
  }

  lemma SimpleTasks(s: State, t: nat, answers: seq<bool>, now: int)
    requires t in s.tasks && s.tasks[t].AwaitSimple? && |answers| == |PanelIds(s.tasks[t].panel)|
    ensures Carried(s, ContinueSimple(s, t, s.tasks[t], answers, now), t)
  {
    var task := s.tasks[t];
    WriteTasks(End(s, t), Finalize(task.q, Passes(task.panel, answers), Attestations(PanelIds(task.panel), answers)).(
      result := Some(task.result), submittedAt := Some(now)));
  }

  lemma ContinueTasks(ports: Ports, s: State, t: nat, reply: Reply, now: int)
    requires t in s.tasks
    ensures Carried(s, Continue(ports, s, t, s.tasks[t], reply, now), t)
  {
    if !reply.Throws? {
      match s.tasks[t]
      case AwaitAmount(_, _, _) =>
        if reply.Amount? {
          AmountTasks(s, t, reply.valid, reply.sats);
        }
      case AwaitLock(q, provider, u) => SelectionTasks(End(s, t), q, provider, u);
      case AwaitSimple(_, _, panel) =>
        if reply.Answers? && |reply.answers| == |PanelIds(panel)| {
          SimpleTasks(s, t, reply.answers, now);
        }
      case AwaitVerdict(_, _, panel) =>
        if reply.Answers? && |reply.answers| == |PanelIds(panel)| {
          VerdictTasks(ports, s, t, reply.answers);
        }
      case _ =>
    }
  }

  /** Every suspended call was there before, or was just started on a stored query that is not terminal. */
  predicate Grown(s: State, r: State, a: Action) {
    && s.used <= r.used
    && forall u :: u in r.tasks ==>
         (u in s.tasks && r.tasks[u] == s.tasks[u])
         || (Starts(a) && a.id in s.store && !Terminal(s.store[a.id].status) && Writes(r.tasks[u], s.store[a.id].id))
  }

  lemma BeginSelectTasks(ports: Ports, s: State, id: string, provider: string, token: Option<string>)
    requires id in s.store
    ensures Grown(s, BeginSelect(ports, s, s.store[id], provider, token), StartSelect(id, provider, token))
  {
    SelectionTasks(s, s.store[id], provider, Updates(token, None));
  }

  lemma BeginSimpleTasks(s: State, id: string, result: string, oracle: Option<string>, now: int)
    requires id in s.store
    ensures Grown(s, BeginSimple(s, s.store[id], result, oracle, now), StartSimple(id, result, oracle, now))
  {
    WriteTasks(s, s.store[id].(status := Expired, payment := Cancelled));
  }

  lemma BeginEscrowTasks(s: State, id: string, result: string, provider: string, oracle: Option<string>, now: int)
    requires id in s.store
    ensures Grown(s, BeginEscrow(s, s.store[id], result, provider, oracle, now),
        StartEscrow(id, result, provider, oracle, now))
  {
    var r := RecordResult(s.store[id], result, provider, now);
    if r.Ok? {
      WriteTasks(s, r.value);
    }
  }

  lemma StepTasks(ports: Ports, s: State, a: Action)
    requires !a.Resume?
    ensures Grown(s, Step(ports, s, a), a)
  {
    if Synchronous(a) {
      if a.id in s.store && Move(s.store[a.id], a).Ok? {
        WriteTasks(s, Move(s.store[a.id], a).value);
      }
    } else if Starts(a) && a.id in s.store {
      match a
      case StartSelect(id, provider, token) => BeginSelectTasks(ports, s, id, provider, token);
      case StartSimple(id, result, oracle, now) => BeginSimpleTasks(s, id, result, oracle, now);
      case StartEscrow(id, result, provider, oracle, now) => BeginEscrowTasks(s, id, result, provider, oracle, now);
    }
  }

  // ---- A record nothing is about to write ----

  predicate NoneWriting(s: State, id: string) { forall t :: t in s.tasks ==> !Writes(s.tasks[t], id) }

  /** The record is this one or deleted, it is terminal, and no suspended call will write it. */
  predicate Untouched(s: State, id: string, q: Record) {
    id in s.used && Terminal(q.status) && (id in s.store ==> s.store[id] == q) && NoneWriting(s, id)
  }

  lemma NoNewWriter(ports: Ports, s: State, a: Action, id: string)
    requires StoreOk(s) && NoneWriting(s, id) && (id in s.store ==> Terminal(s.store[id].status))
    ensures NoneWriting(Step(ports, s, a), id)
  {
    if a.Resume? {
      if a.task in s.tasks {
        ContinueTasks(ports, s, a.task, a.reply, a.now);
      }
    } else {
      StepTasks(ports, s, a);
    }
  }

  lemma UsedGrows(ports: Ports, s: State, a: Action)
    ensures s.used <= Step(ports, s, a).used
  {
    if a.Resume? {
      if a.task in s.tasks {
        ContinueTasks(ports, s, a.task, a.reply, a.now);
      }
    } else {
      StepTasks(ports, s, a);
    }
  }

  lemma UntouchedStays(ports: Ports, s: State, a: Action, id: string, q: Record)
    requires Inv(s) && Untouched(s, id, q)
    ensures Untouched(Step(ports, s, a), id, q)
  {
    NoNewWriter(ports, s, a, id);
    UsedGrows(ports, s, a);
    if a.Resume? {
      if a.task in s.tasks {
        ContinueWritesOwn(ports, s, a.task, s.tasks[a.task], a.reply, a.now, id);
      }
    } else {
      FreshStepKeepsTerminal(ports, s, a, id);
    }
  }

  lemma {:induction false} UntouchedForever(ports: Ports, s: State, more: seq<Action>, id: string, q: Record)
    requires Inv(s) && Untouched(s, id, q)
    ensures Inv(Exec(ports, s, more)) && Untouched(Exec(ports, s, more), id, q)
  {
    if more != [] {
      var front := more[..|more| - 1];
      UntouchedForever(ports, s, front, id, q);
      StepKeepsInv(ports, Exec(ports, s, front), more[|more| - 1]);
      UntouchedStays(ports, Exec(ports, s, front), more[|more| - 1], id, q);
    }
  }

  lemma StoredIsUsed(s: State, id: string)
    requires Inv(s) && id in s.store
    ensures id in s.used
  {
    assert RecordOk(s.log, s.store[id]);
    var c: nat :| CreatedAt(s.log, c, TermsOf(s.store[id]));
    assert s.log[c].q.id == TermsOf(s.log[c].q).id;
  }

  /** In every run, a terminal record that no suspended call is about to write stays as it is, in every continuation. */
  lemma UnwrittenRecordIsFinal(ports: Ports, actions: seq<Action>, more: seq<Action>, id: string)
    requires id in Exec(ports, Init(), actions).store && Terminal(Exec(ports, Init(), actions).store[id].status)
    requires NoneWriting(Exec(ports, Init(), actions), id)
    ensures var s := Exec(ports, Init(), actions);
      id in Exec(ports, s, more).store ==> Exec(ports, s, more).store[id] == s.store[id]
  {
    EveryRunKeepsInv(ports, actions);
    var s := Exec(ports, Init(), actions);
    StoredIsUsed(s, id);
    UntouchedForever(ports, s, more, id, s.store[id]);
  }

  // ---- When a terminal status is final ----

  /** A suspended selection of this query. */
  predicate Selecting(task: Task, id: string) { (task.AwaitAmount? || task.AwaitLock?) && task.q.id == id }

  /** Some answers make the panel pass. */
  predicate CanPass(p: Panel) {
    match p
    case Nobody => false
    case One(_) => true
    case Many(ids, min) => |ids| >= min
  }

  /** Some answers make it fail. */
  predicate CanFail(p: Panel) { p.Many? ==> p.minApprovals > 0 }

  /**
   The suspended call can still store another status: a selection always, a verdict by passing or failing, a simple
   submission likewise, except that it stores nothing when it fails without any answer.
   */
  predicate Threatens(task: Task, id: string, status: Status) {
    || Selecting(task, id)
    || (&& (task.AwaitVerdict? || task.AwaitSimple?) && task.q.id == id
        && (|| (!status.Approved? && CanPass(task.panel))
            || (!status.Rejected? && CanFail(task.panel) && (task.AwaitSimple? ==> PanelIds(task.panel) != []))))
  }

  predicate NoneThreatens(s: State, id: string, status: Status) {
    forall t :: t in s.tasks ==> !Threatens(s.tasks[t], id, status)
  }

  predicate Steady(s: State, id: string, status: Status) {
    && id in s.used && Terminal(status) && (id in s.store ==> s.store[id].status == status)
    && NoneThreatens(s, id, status)
  }

  lemma {:induction false} ApprovalsOfSame(n: nat, answer: bool)
    ensures Approvals(seq(n, _ => answer)) == if answer then n else 0
  {
    if n > 0 {
      ApprovalsOfSame(n - 1, answer);
      assert seq(n, _ => answer)[..n - 1] == seq(n - 1, _ => answer);
    }
  }

  /** A panel passes on some answers exactly when it can pass, and fails on some exactly when it can fail. */
  lemma PanelCan(p: Panel, answers: seq<bool>)
    requires |answers| == |PanelIds(p)|
    ensures Passes(p, answers) ==> CanPass(p)
    ensures !Passes(p, answers) ==> CanFail(p)
  {
    ApprovalsBound(answers);
  }

  lemma AnswersFor(p: Panel, pass: bool) returns (answers: seq<bool>)
    requires if pass then CanPass(p) else CanFail(p)
    ensures |answers| == |PanelIds(p)| && Passes(p, answers) == pass
  {
    answers := seq(|PanelIds(p)|, _ => pass);
    ApprovalsOfSame(|PanelIds(p)|, pass);
  }

  lemma VerdictStatus(ports: Ports, s: State, t: nat, answers: seq<bool>)
    requires t in s.tasks && s.tasks[t].AwaitVerdict? && |answers| == |PanelIds(s.tasks[t].panel)|
    ensures var r := ContinueVerdict(ports, s, t, s.tasks[t], answers); var id := s.tasks[t].q.id;
      id in r.store && r.store[id].status == if Passes(s.tasks[t].panel, answers) then Approved else Rejected
  {
    var task := s.tasks[t];
    var passed := Passes(task.panel, answers);
    var final := Finalize(task.q, passed, Attestations(PanelIds(task.panel), answers));
    SettleWritesNothing(ports, Write(Log(s,
      Verified(t, task.q.id, task.submitter, task.panel, answers)), final), t, final, passed);
  }

  lemma SimpleStatus(s: State, t: nat, answers: seq<bool>, now: int)
    requires t in s.tasks && s.tasks[t].AwaitSimple? && |answers| == |PanelIds(s.tasks[t].panel)|
    requires Passes(s.tasks[t].panel, answers) || answers != []
    ensures var r := ContinueSimple(s, t, s.tasks[t], answers, now); var id := s.tasks[t].q.id;
      id in r.store && r.store[id].status == if Passes(s.tasks[t].panel, answers) then Approved else Rejected
  {
  }

  /** A submission that threatens no change stores the same status or nothing. */
  lemma SubmissionKeepsStatus(ports: Ports, s: State, t: nat, reply: Reply, now: int, id: string, status: Status)
    requires t in s.tasks && (s.tasks[t].AwaitSimple? || s.tasks[t].AwaitVerdict?) && s.tasks[t].q.id == id
    requires Steady(s, id, status)
    ensures var r := Continue(ports, s, t, s.tasks[t], reply, now); id in r.store ==> r.store[id].status == status
  {
    var task := s.tasks[t];
    if reply.Answers? && |reply.answers| == |PanelIds(task.panel)| {
      PanelCan(task.panel, reply.answers);
      if task.AwaitVerdict? {
        VerdictStatus(ports, s, t, reply.answers);
      } else if Passes(task.panel, reply.answers) || reply.answers != [] {
        SimpleStatus(s, t, reply.answers, now);
      }
    }
  }

  lemma NoNewThreat(ports: Ports, s: State, a: Action, id: string, status: Status)
    requires StoreOk(s) && Steady(s, id, status)
    ensures NoneThreatens(Step(ports, s, a), id, status)
  {
    if a.Resume? {
      if a.task in s.tasks {
        ContinueTasks(ports, s, a.task, a.reply, a.now);
      }
    } else {
      StepTasks(ports, s, a);
    }
  }

  lemma SteadyStays(ports: Ports, s: State, a: Action, id: string, status: Status)
    requires Inv(s) && Steady(s, id, status)
    ensures Steady(Step(ports, s, a), id, status)
  {
    NoNewThreat(ports, s, a, id, status);
    UsedGrows(ports, s, a);
    if a.Resume? {
      if a.task in s.tasks {
        ResumeKeepsStatus(ports, s, a.task, a.reply, a.now, id, status);
      }
    } else {
      FreshStepKeepsTerminal(ports, s, a, id);
    }
  }

  lemma ResumeKeepsStatus(ports: Ports, s: State, t: nat, reply: Reply, now: int, id: string, status: Status)
    requires t in s.tasks && Steady(s, id, status)
    ensures var r := Continue(ports, s, t, s.tasks[t], reply, now); id in r.store ==> r.store[id].status == status
  {
    if Writes(s.tasks[t], id) {
      assert !Selecting(s.tasks[t], id);
      SubmissionKeepsStatus(ports, s, t, reply, now, id, status);
    } else {
      ContinueWritesOwn(ports, s, t, s.tasks[t], reply, now, id);
    }
  }

  lemma {:induction false} SteadyForever(ports: Ports, s: State, more: seq<Action>, id: string, status: Status)
    requires Inv(s) && Steady(s, id, status)
    ensures Inv(Exec(ports, s, more)) && Steady(Exec(ports, s, more), id, status)
  {
    if more != [] {
      var front := more[..|more| - 1];
      SteadyForever(ports, s, front, id, status);
      StepKeepsInv(ports, Exec(ports, s, front), more[|more| - 1]);
      SteadyStays(ports, Exec(ports, s, front), more[|more| - 1], id, status);
    }
  }

  lemma SelectionCommits(s: State, q: Record, provider: string, u: Updates)
    requires q.escrow.Some? && q.status.AwaitingOffers?
    ensures var r := CommitSelection(s, q, provider, u); q.id in r.store && r.store[q.id].status.ProviderSelected?
  {
  }

  lemma AmountCommits(ports: Ports, s: State, t: nat)
    requires t in s.tasks && s.tasks[t].AwaitAmount? && s.tasks[t].q.escrow.Some? && s.tasks[t].q.status.AwaitingOffers?
    ensures var r := Step(ports, s, Resume(t, Amount(true, None), 0)); var task := s.tasks[t];
      if HasHash(task.q.escrow.value)
      then t in r.tasks && r.tasks[t] == AwaitLock(task.q, task.provider, Updates(task.token, Some(None)))
      else task.q.id in r.store && r.store[task.q.id].status.ProviderSelected?
  {
    var task := s.tasks[t];
    SelectionCommits(End(s, t), task.q, task.provider, Updates(task.token, Some(None)));
  }

  lemma LockCommits(ports: Ports, s: State, t: nat)
    requires t in s.tasks && s.tasks[t].AwaitLock? && s.tasks[t].q.escrow.Some? && s.tasks[t].q.status.AwaitingOffers?
    ensures var r := Step(ports, s, Resume(t, Lock(true), 0)); var id := s.tasks[t].q.id;
      id in r.store && r.store[id].status.ProviderSelected?
  {
    var task := s.tasks[t];
    SelectionCommits(End(s, t), task.q, task.provider, task.updates);
  }

  lemma ExecOne(ports: Ports, s: State, a: Action)
    ensures Exec(ports, s, [a]) == Step(ports, s, a)
  {
    assert [a][..0] == [];
  }

  lemma ExecTwo(ports: Ports, s: State, a: Action, b: Action)
    ensures Exec(ports, s, [a, b]) == Step(ports, Step(ports, s, a), b)
  {
    assert [a, b][..1] == [a];
    ExecOne(ports, s, a);
  }

  /** A suspended selection, once its checks succeed, writes its stale record over whatever is stored. */
  lemma SelectionResurrects(ports: Ports, s: State, t: nat, id: string) returns (more: seq<Action>)
    requires Inv(s) && t in s.tasks && Selecting(s.tasks[t], id)
    ensures id in Exec(ports, s, more).store && Exec(ports, s, more).store[id].status.ProviderSelected?
  {
    assert TaskOk(s.log, t, s.tasks[t]);
    var amount, lock := Resume(t, Amount(true, None), 0), Resume(t, Lock(true), 0);
    if s.tasks[t].AwaitLock? {
      LockCommits(ports, s, t);
      ExecOne(ports, s, lock);
      more := [lock];
    } else {
      AmountCommits(ports, s, t);
      ExecOne(ports, s, amount);
      more := [amount];
      if HasHash(s.tasks[t].q.escrow.value) {
        LockCommits(ports, Step(ports, s, amount), t);
        ExecTwo(ports, s, amount, lock);
        more := [amount, lock];
      }
    }
  }

  /** A suspended submission that can still store another status does so on some answers. */
  lemma SubmissionOverwrites(ports: Ports, s: State, t: nat, id: string, status: Status) returns (more: seq<Action>)
    requires t in s.tasks && Threatens(s.tasks[t], id, status) && (s.tasks[t].AwaitVerdict? || s.tasks[t].AwaitSimple?)
    ensures id in Exec(ports, s, more).store && Exec(ports, s, more).store[id].status != status
  {
    var task := s.tasks[t];
    var pass := !status.Approved? && CanPass(task.panel);
    var answers := AnswersFor(task.panel, pass);
    more := [Resume(t, Answers(answers), 0)];
    ExecOne(ports, s, more[0]);
    if task.AwaitVerdict? {
      VerdictStatus(ports, s, t, answers);
    } else {
      SimpleStatus(s, t, answers, 0);
    }
  }

  predicate KeepsStatus(ports: Ports, s: State, more: seq<Action>, id: string, status: Status) {
    var r := Exec(ports, s, more);
    id in r.store ==> r.store[id].status == status
  }

  /**
   A terminal status never changes again, in any continuation and until the record is deleted, exactly when no
   suspended call threatens it: no selection of the query, and no submission whose panel can still decide otherwise.
   */
  lemma TerminalIsFinalIff(ports: Ports, actions: seq<Action>, id: string)
    requires id in Exec(ports, Init(), actions).store && Terminal(Exec(ports, Init(), actions).store[id].status)
    ensures var s := Exec(ports, Init(), actions); var status := s.store[id].status;
      (forall more: seq<Action> :: KeepsStatus(ports, s, more, id, status)) <==> NoneThreatens(s, id, status)
  {
    EveryRunKeepsInv(ports, actions);
    var s := Exec(ports, Init(), actions);
    var status := s.store[id].status;
    if NoneThreatens(s, id, status) {
      StoredIsUsed(s, id);
      forall more: seq<Action>
        ensures KeepsStatus(ports, s, more, id, status)
      {
        SteadyForever(ports, s, more, id, status);
      }
    } else {
      var t :| t in s.tasks && Threatens(s.tasks[t], id, status);
      var more;
      if Selecting(s.tasks[t], id) {
        more := SelectionResurrects(ports, s, t, id);
      } else {
        more := SubmissionOverwrites(ports, s, t, id, status);
      }
      assert !KeepsStatus(ports, s, more, id, status);
    }
  }
}
