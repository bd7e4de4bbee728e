/** Runs of the query service in which no call starts while another is suspended. */
module QuerySequential {
  import opened Wrappers
  import opened Query
  import opened Quorum
  import opened QueryMachine
  import opened QuerySafety
  import opened QueryFinality

  /** While a call is suspended, only it moves; new oracles and new hashes may still arrive. */
  predicate Calm(s: State, a: Action) {
    s.tasks == map[] || a.Resume? || a.DoIssue? || a.DoRegister?
  }

  predicate Sequential(ports: Ports, actions: seq<Action>) {
    actions == []
    || (Sequential(ports, actions[..|actions| - 1])
        && Calm(Exec(ports, Init(), actions[..|actions| - 1]), actions[|actions| - 1]))
  }

  // ---- Counting status changes ----

  function Changes(log: seq<Event>, id: string): nat {
    if log == [] then 0
    else
      var last := log[|log| - 1];
      Changes(log[..|log| - 1], id) + (if last.Changed? && last.id == id then 1 else 0)
  }

  lemma ChangesSnoc(log: seq<Event>, e: Event, id: string)
    ensures Changes(log + [e], id) == Changes(log, id) + (if e.Changed? && e.id == id then 1 else 0)
  {
    assert (log + [e])[..|log|] == log;
  }

  /** Each change has used up a rank: a stored query's changes are bounded by its rank. */
  predicate CountOk(s: State, id: string) {
    Changes(s.log, id) <= (if id in s.store then Rank(s.store[id].status) else if id in s.used then 4 else 0)
  }

  ghost predicate CountsOk(s: State) {
    (forall id :: id in s.store ==> id in s.used) && (forall id: string :: CountOk(s, id))
  }

  ghost predicate ChangeOk(log: seq<Event>, e: Event)
    requires e.Changed?
  {
    exists terms: Terms :: HasTerms(log, terms) && terms.id == e.id && Allowed(e.from, e.to, terms.escrow.Some?)
  }

  ghost predicate ChangesOk(log: seq<Event>) {
    forall k: nat :: k < |log| && log[k].Changed? ==> ChangeOk(log, log[k])
  }

  // ---- Preimages that were returned ----

  ghost predicate RevealAt(log: seq<Event>, k: nat, hash: string) {
    && k < |log| && log[k].Returned? && log[k].outcome.preimage.Some?
    && SettledBy(log[..k], log[k].id, Htlc(hash))
  }

  ghost predicate GoneOk(s: State) {
    && (forall h :: h in s.preimages ==> h in s.issued)
    && (forall k: nat, h: string :: RevealAt(s.log, k, h) ==> h !in s.preimages && h in s.issued)
  }

  ghost predicate OnceOk(log: seq<Event>) {
    forall i: nat, j: nat, h: string :: RevealAt(log, i, h) && RevealAt(log, j, h) ==> i == j
  }

  // ---- The suspended call ----

  /** The suspended call still sees what it read. */
  predicate Current(s: State, task: Task) {
    match task
    case AwaitAmount(q, _, _) => q.id in s.store && s.store[q.id] == q
    case AwaitLock(q, _, _) => q.id in s.store && s.store[q.id] == q
    case AwaitSimple(q, _, _) => q.id in s.store && s.store[q.id] == q
    case AwaitVerdict(q, _, _) => q.id in s.store && s.store[q.id] == q
    case AwaitDelete(_, hash, _) => hash in s.preimages
    case _ => true
  }

  predicate Fits(s: State) {
    forall t :: t in s.tasks ==> Current(s, s.tasks[t]) && forall u :: u in s.tasks ==> u == t
  }

  ghost predicate Rest(s: State) {
    Fits(s) && CountsOk(s) && ChangesOk(s.log) && GoneOk(s) && OnceOk(s.log)
  }

  // ---- Primitive steps ----

  predicate Reveals(e: Event) { e.Returned? && e.outcome.preimage.Some? }

  lemma ChangeOkGrows(log: seq<Event>, e: Event, f: Event)
    requires f.Changed? && ChangeOk(log, f)
    ensures ChangeOk(log + [e], f)
  {
    var terms: Terms :| HasTerms(log, terms) && terms.id == f.id && Allowed(f.from, f.to, terms.escrow.Some?);
    HasTermsGrows(log, e, terms);
  }

  lemma ChangesOkGrows(log: seq<Event>, e: Event)
    requires ChangesOk(log) && (e.Changed? ==> ChangeOk(log, e))
    ensures ChangesOk(log + [e])
  {
    var after := log + [e];
    forall k: nat | k < |after| && after[k].Changed?
      ensures ChangeOk(after, after[k])
    {
      ChangeOkGrows(log, e, after[k]);
    }
  }

  lemma RevealSnoc(log: seq<Event>, e: Event, k: nat, h: string)
    ensures k < |log| ==> (RevealAt(log + [e], k, h) <==> RevealAt(log, k, h))
    ensures k == |log| ==> (RevealAt(log + [e], k, h) <==> Reveals(e) && SettledBy(log, e.id, Htlc(h)))
  {
    if k <= |log| {
      assert (log + [e])[..k] == log[..k];
    }
    if k == |log| {
      assert log[..k] == log;
    }
  }

  /** Logging anything but a status change or a revealed preimage. */
  lemma QuietLogKeepsRest(s: State, e: Event)
    requires Rest(s) && !e.Changed? && !Reveals(e)
    ensures Rest(Log(s, e))
  {
    var after := Log(s, e);
    ChangesOkGrows(s.log, e);
    forall id: string
      ensures CountOk(after, id)
    {
      ChangesSnoc(s.log, e, id);
      assert CountOk(s, id);
    }
    forall k: nat, h: string
      ensures RevealAt(after.log, k, h) ==> RevealAt(s.log, k, h)
    {
      RevealSnoc(s.log, e, k, h);
    }
  }

  /** Writing a good move of a stored record while nothing is suspended. */
  lemma MoveKeepsRest(s: State, q: Record)
    requires Rest(s) && s.tasks == map[] && q.id in s.store
    requires GoodMove(s.store[q.id], q) && HasTerms(s.log, TermsOf(q))
    ensures Rest(Write(s, q)) && Write(s, q).tasks == map[]
  {
    var p := s.store[q.id];
    var after := Write(s, q);
    if p.status != q.status {
      var e := Changed(q.id, p.status, q.status);
      AllowedRaisesRank(p.status, q.status, p.escrow.Some?);
      ChangesOkGrows(s.log, e) by {
        assert TermsOf(q).id == e.id && TermsOf(q).escrow.Some? == p.escrow.Some?;
      }
      forall id: string
        ensures CountOk(after, id)
      {
        ChangesSnoc(s.log, e, id);
        assert CountOk(s, id);
      }
      forall k: nat, h: string
        ensures RevealAt(after.log, k, h) ==> RevealAt(s.log, k, h)
      {
        RevealSnoc(s.log, e, k, h);
      }
    } else {
      forall id: string
        ensures CountOk(after, id)
      {
        assert CountOk(s, id);
      }
    }
  }

  lemma EndKeepsRest(s: State, t: nat)
    requires Rest(s) && t in s.tasks
    ensures Rest(End(s, t)) && End(s, t).tasks == map[]
  {
    var after := End(s, t);
    CountsFrame(s, after);
  }

  /** Counts depend on log, store and used ids only. */
  lemma CountsFrame(s: State, after: State)
    requires CountsOk(s) && after.log == s.log && after.store == s.store && after.used == s.used
    ensures CountsOk(after)
  {
    forall id: string
      ensures CountOk(after, id)
    {
      assert CountOk(s, id);
    }
  }

  lemma SpawnKeepsRest(s: State, task: Task)
    requires Rest(s) && s.tasks == map[] && Current(s, task)
    ensures Rest(Spawn(s, task))
  {
    CountsFrame(s, Spawn(s, task));
  }

  lemma BecomeKeepsRest(s: State, t: nat, task: Task)
    requires Rest(s) && (forall u :: u in s.tasks ==> u == t) && Current(s, task)
    ensures Rest(Become(s, t, task))
  {
    CountsFrame(s, Become(s, t, task));
  }

  // ---- Calls ----

  lemma CommitSelectionKeepsRest(s: State, q: Record, provider: string, u: Updates)
    requires Rest(s) && s.tasks == map[] && RecordOk(s.log, q) && q.id in s.store && s.store[q.id] == q
    ensures Rest(CommitSelection(s, q, provider, u))
  {
    var r := SelectProvider(q, provider, u);
    if r.Ok? {
      var e := Chosen(q.id, provider);
      QuietLogKeepsRest(s, e);
      HasTermsGrows(s.log, e, TermsOf(q));
      SelectIsGood(q, provider, u);
      MoveKeepsRest(Log(s, e), r.value);
    }
  }

  lemma SelectIsGood(q: Record, provider: string, u: Updates)
    requires Paired(q) && SelectProvider(q, provider, u).Ok?
    ensures GoodMove(q, SelectProvider(q, provider, u).value)
  {
  }

  lemma UpdateKeepsRest(s: State, a: Action)
    requires Inv(s) && Rest(s) && s.tasks == map[] && Synchronous(a)
    ensures Rest(Update(s, a))
  {
    if a.id in s.store {
      var q := s.store[a.id];
      var r := Move(q, a);
      if r.Ok? {
        MoveKeepsRecord(s.log, q, a);
        MoveKeepsRest(s, r.value);
      }
    }
  }

  lemma BeginSelectKeepsRest(ports: Ports, s: State, id: string, provider: string, token: Option<string>)
    requires Inv(s) && Rest(s) && s.tasks == map[] && id in s.store
    ensures Rest(BeginSelect(ports, s, s.store[id], provider, token))
  {
    var q := s.store[id];
    SpawnKeepsRest(s, AwaitAmount(q, provider, token));
    SpawnKeepsRest(s, AwaitLock(q, provider, Updates(token, None)));
    CommitSelectionKeepsRest(s, q, provider, Updates(token, None));
  }

  lemma BeginSimpleKeepsRest(s: State, id: string, result: string, oracle: Option<string>, now: int)
    requires Inv(s) && Rest(s) && s.tasks == map[] && id in s.store
    ensures Rest(BeginSimple(s, s.store[id], result, oracle, now))
  {
    var q := s.store[id];
    if q.status.Pending? {
      if q.expiresAt < now {
        MoveKeepsRest(s, q.(status := Expired, payment := Cancelled));
      } else {
        SpawnKeepsRest(s, AwaitSimple(q, result, Choose(s.order, q.oracleIds, q.quorum, oracle)));
      }
    }
  }

  lemma RefusalKeepsRest(s: State, id: string)
    requires Rest(s) && s.tasks == map[]
    ensures Rest(Log(s.(next := s.next + 1), Returned(s.next, id, Outcome(false, None, None))))
  {
    CountsFrame(s, s.(next := s.next + 1));
    QuietLogKeepsRest(s.(next := s.next + 1), Returned(s.next, id, Outcome(false, None, None)));
  }

  lemma BeginEscrowKeepsRest(s: State, id: string, result: string, provider: string, oracle: Option<string>, now: int)
    requires Inv(s) && Rest(s) && s.tasks == map[] && id in s.store
    ensures Rest(BeginEscrow(s, s.store[id], result, provider, oracle, now))
  {
    var q := s.store[id];
    var r := RecordResult(q, result, provider, now);
    if r.Err? {
      RefusalKeepsRest(s, q.id);
    } else {
      assert GoodMove(q, r.value);
      MoveKeepsRest(s, r.value);
      SpawnKeepsRest(Write(s, r.value),
                     AwaitVerdict(r.value, provider, Choose(s.order, q.oracleIds, q.quorum, oracle)));
    }
  }

  lemma AmountKeepsRest(s: State, t: nat, valid: bool, sats: Option<int>)
    requires Inv(s) && Rest(s) && t in s.tasks && s.tasks[t].AwaitAmount?
    ensures Rest(ContinueAmount(s, t, s.tasks[t], valid, sats))
  {
    var task := s.tasks[t];
    var u := Updates(task.token, Some(sats));
    assert TaskOk(s.log, t, task) && Current(s, task);
    EndKeepsRest(s, t);
    BecomeKeepsRest(s, t, AwaitLock(task.q, task.provider, u));
    CommitSelectionKeepsRest(End(s, t), task.q, task.provider, u);
  }

  lemma SimpleKeepsRest(s: State, t: nat, answers: seq<bool>, now: int)
    requires Inv(s) && Rest(s) && t in s.tasks && s.tasks[t].AwaitSimple? && |answers| == |PanelIds(s.tasks[t].panel)|
    ensures Rest(ContinueSimple(s, t, s.tasks[t], answers, now))
  {
    var task := s.tasks[t];
    var final := Finalize(task.q, Passes(task.panel, answers), Attestations(PanelIds(task.panel), answers)).(
      result := Some(task.result), submittedAt := Some(now));
    assert TaskOk(s.log, t, task) && Current(s, task);
    EndKeepsRest(s, t);
    assert GoodMove(task.q, final);
    MoveKeepsRest(End(s, t), final);
  }

  lemma SettleKeepsRest(ports: Ports, s: State, t: nat, q: Record, passed: bool)
    requires Rest(s) && s.tasks == map[]
    ensures Rest(Settle(ports, s, t, q, passed))
  {
    if passed && q.escrow.Some? && HasHash(q.escrow.value) && ports.preimages {
      BecomeKeepsRest(s, t, AwaitRead(q.id, q.escrow.value.settlement.hash));
    } else if passed && q.escrow.Some? && q.escrow.value.settlement.Frost? && ports.frost {
      BecomeKeepsRest(s, t, AwaitSignature(q.id, q.escrow.value.settlement.group));
    } else {
      assert End(s, t) == s;
      QuietLogKeepsRest(s, Returned(t, q.id, Outcome(passed, None, None)));
    }
  }

  lemma VerdictKeepsRest(ports: Ports, s: State, t: nat, answers: seq<bool>)
    requires Inv(s) && Rest(s) && t in s.tasks && s.tasks[t].AwaitVerdict? && |answers| == |PanelIds(s.tasks[t].panel)|
    ensures Rest(ContinueVerdict(ports, s, t, s.tasks[t], answers))
  {
    var task := s.tasks[t];
    var passed := Passes(task.panel, answers);
    var final := Finalize(task.q, passed, Attestations(PanelIds(task.panel), answers));
    var e := Verified(t, task.q.id, task.submitter, task.panel, answers);
    assert TaskOk(s.log, t, task) && Current(s, task);
    EndKeepsRest(s, t);
    QuietLogKeepsRest(End(s, t), e);
    HasTermsGrows(s.log, e, TermsOf(task.q));
    assert GoodMove(task.q, final);
    MoveKeepsRest(Log(End(s, t), e), final);
    SettleKeepsRest(ports, Write(Log(End(s, t), e), final), t, final, passed);
    SettleAfterEnd(ports, s, t, final, passed, e);
  }

  lemma QuietReturnKeepsRest(s: State, t: nat, id: string, o: Outcome)
    requires Rest(s) && t in s.tasks && o.preimage.None?
    ensures Rest(Return(s, t, id, o))
  {
    EndKeepsRest(s, t);
    QuietLogKeepsRest(End(s, t), Returned(t, id, o));
  }

  lemma SettlementIsUnique(log: seq<Event>, id: string, a: Settlement, b: Settlement)
    requires LogOk(log) && SettledBy(log, id, a) && SettledBy(log, id, b)
    ensures a == b
  {
    var x: Terms :| HasTerms(log, x) && x.id == id && x.escrow.Some? && x.escrow.value.0 == a;
    var y: Terms :| HasTerms(log, y) && y.id == id && y.escrow.Some? && y.escrow.value.0 == b;
    var c: nat :| CreatedAt(log, c, x);
    var d: nat :| CreatedAt(log, d, y);
    CreationsAreUnique(log, c, d);
  }

  /** Returning a preimage deletes it, and it was not returned before. */
  lemma DeleteKeepsRest(s: State, t: nat)
    requires Inv(s) && Rest(s) && t in s.tasks && s.tasks[t].AwaitDelete?
    ensures Rest(ContinueDelete(s, t, s.tasks[t]))
  {
    var task := s.tasks[t];
    assert TaskOk(s.log, t, task) && Current(s, task);
    var e := Returned(t, task.id, Outcome(true, Some(task.preimage), None));
    var after := ContinueDelete(s, t, task);
    assert after.tasks == map[];
    ChangesOkGrows(s.log, e);
    forall id: string
      ensures CountOk(after, id)
    {
      ChangesSnoc(s.log, e, id);
      assert CountOk(s, id);
    }
    forall k: nat, h: string
      ensures RevealAt(after.log, k, h) ==> RevealAt(s.log, k, h) || (k == |s.log| && h == task.hash)
    {
      RevealSnoc(s.log, e, k, h);
      if k == |s.log| && SettledBy(s.log, task.id, Htlc(h)) {
        SettlementIsUnique(s.log, task.id, Htlc(h), Htlc(task.hash));
      }
    }
  }

  lemma ReadKeepsRest(s: State, t: nat)
    requires Rest(s) && t in s.tasks && s.tasks[t].AwaitRead?
    ensures Rest(ContinueRead(s, t, s.tasks[t]))
  {
    var task := s.tasks[t];
    var e := Read(t, task.hash, Stored(s, task.hash));
    QuietLogKeepsRest(s, e);
    if Stored(s, task.hash) {
      BecomeKeepsRest(Log(s, e), t, AwaitDelete(task.id, task.hash, s.preimages[task.hash]));
    } else {
      QuietReturnKeepsRest(Log(s, e), t, task.id, Outcome(true, None, None));
    }
  }

  lemma SignatureKeepsRest(s: State, t: nat, signatures: Option<seq<string>>)
    requires Rest(s) && t in s.tasks && s.tasks[t].AwaitSignature?
    ensures Rest(ContinueSignature(s, t, s.tasks[t], signatures))
  {
    QuietLogKeepsRest(s, Replied(t, signatures.Some?));
    QuietReturnKeepsRest(Log(s, Replied(t, signatures.Some?)), t, s.tasks[t].id, Outcome(true, None, signatures));
  }

  lemma ContinueKeepsRest(ports: Ports, s: State, t: nat, reply: Reply, now: int)
    requires Inv(s) && Rest(s) && t in s.tasks
    ensures Rest(Continue(ports, s, t, s.tasks[t], reply, now))
  {
    var task := s.tasks[t];
    EndKeepsRest(s, t);
    if reply.Throws? {
      if task.AwaitSignature? {
        SignatureKeepsRest(s, t, None);
      }
    } else {
      match task
      case AwaitAmount(_, _, _) =>
        if reply.Amount? {
          AmountKeepsRest(s, t, reply.valid, reply.sats);
        }
      case AwaitLock(q, provider, u) =>
        assert TaskOk(s.log, t, task) && Current(s, task);
        CommitSelectionKeepsRest(End(s, t), q, provider, u);
      case AwaitSimple(_, _, panel) =>
        if reply.Answers? && |reply.answers| == |PanelIds(panel)| {
          SimpleKeepsRest(s, t, reply.answers, now);
        }
      case AwaitVerdict(_, _, panel) =>
        if reply.Answers? && |reply.answers| == |PanelIds(panel)| {
          VerdictKeepsRest(ports, s, t, reply.answers);
        }
      case AwaitRead(_, _) => ReadKeepsRest(s, t);
      case AwaitDelete(_, _, _) => DeleteKeepsRest(s, t);
      case AwaitSignature(_, _) =>
        if reply.Signatures? {
          SignatureKeepsRest(s, t, reply.signatures);
        }
    }
  }

  // ---- Every sequential run ----

  lemma CreateKeepsRest(s: State, id: string, o: Options, now: int)
    requires Rest(s) && s.tasks == map[]
    ensures Rest(DoCreateStep(s, id, o, now))
  {
    var r := Create(id, o, now);
    if id !in s.used && r.Ok? {
      var placed := s.(store := s.store[id := r.value], used := s.used + {id});
      forall x: string
        ensures CountOk(placed, x)
      {
        assert CountOk(s, x);
      }
      QuietLogKeepsRest(placed, Created(r.value));
    }
  }

  lemma IssueKeepsRest(ports: Ports, s: State, hash: string, preimage: string)
    requires Rest(s)
    ensures Rest(Step(ports, s, DoIssue(hash, preimage)))
  {
    if hash !in s.issued {
      var marked := s.(preimages := s.preimages[hash := preimage], issued := s.issued + {hash});
      CountsFrame(s, marked);
      QuietLogKeepsRest(marked, Issued(hash, preimage));
    }
  }

  /** Deleting records only widens the bound on their changes. */
  lemma DropKeepsRest(s: State, store: map<string, Record>)
    requires Rest(s) && s.tasks == map[]
    requires forall id :: id in store ==> id in s.store && store[id] == s.store[id]
    ensures Rest(s.(store := store))
  {
    var after := s.(store := store);
    forall id: string
      ensures CountOk(after, id)
    {
      assert CountOk(s, id);
    }
  }

  lemma RegisterKeepsRest(s: State, order: seq<string>)
    requires Rest(s)
    ensures Rest(s.(order := order))
  {
    CountsFrame(s, s.(order := order));
  }

  lemma StartKeepsRest(ports: Ports, s: State, a: Action)
    requires Inv(s) && Rest(s) && s.tasks == map[] && Starts(a)
    ensures Rest(Step(ports, s, a))
  {
    match a
    case StartSelect(_, _, _) => StartSelectKeepsRest(ports, s, a);
    case StartSimple(_, _, _, _) => StartSimpleKeepsRest(ports, s, a);
    case StartEscrow(_, _, _, _, _) => StartEscrowKeepsRest(ports, s, a);
  }

  lemma StartSelectKeepsRest(ports: Ports, s: State, a: Action)
    requires Inv(s) && Rest(s) && s.tasks == map[] && a.StartSelect?
    ensures Rest(Step(ports, s, a))
  {
    if a.id in s.store {
      BeginSelectKeepsRest(ports, s, a.id, a.provider, a.token);
    }
  }

  lemma StartSimpleKeepsRest(ports: Ports, s: State, a: Action)
    requires Inv(s) && Rest(s) && s.tasks == map[] && a.StartSimple?
    ensures Rest(Step(ports, s, a))
  {
    if a.id in s.store {
      BeginSimpleKeepsRest(s, a.id, a.result, a.oracle, a.now);
    }
  }

  lemma StartEscrowKeepsRest(ports: Ports, s: State, a: Action)
    requires Inv(s) && Rest(s) && s.tasks == map[] && a.StartEscrow?
    ensures Rest(Step(ports, s, a))
  {
    if a.id in s.store {
      BeginEscrowKeepsRest(s, a.id, a.result, a.provider, a.oracle, a.now);
    } else {
      RefusalKeepsRest(s, a.id);
    }
  }

  lemma StepKeepsRest(ports: Ports, s: State, a: Action)
    requires Inv(s) && Rest(s) && Calm(s, a)
    ensures Rest(Step(ports, s, a))
  {
    match a
    case DoCreate(id, o, now) => CreateKeepsRest(s, id, o, now);
    case DoIssue(hash, preimage) => IssueKeepsRest(ports, s, hash, preimage);
    case DoRegister(name) => RegisterKeepsRest(s, s.order + [name]);
    case DoPurge(id) => DropKeepsRest(s, s.store - {id});
    case DoClear => DropKeepsRest(s, map[]);
    case StartSelect(_, _, _) => StartKeepsRest(ports, s, a);
    case StartSimple(_, _, _, _) => StartKeepsRest(ports, s, a);
    case StartEscrow(_, _, _, _, _) => StartKeepsRest(ports, s, a);
    case Resume(t, reply, now) =>
      if t in s.tasks {
        ContinueKeepsRest(ports, s, t, reply, now);
      }
    case _ => UpdateKeepsRest(s, a);
  }

  lemma {:induction false} SequentialRunsKeepRest(ports: Ports, actions: seq<Action>)
    requires Sequential(ports, actions)
    ensures Inv(Exec(ports, Init(), actions)) && Rest(Exec(ports, Init(), actions))
  {
    EveryRunKeepsInv(ports, actions);
    if actions == [] {
      assert forall id: string :: CountOk(Init(), id);
    } else {
      var front := actions[..|actions| - 1];
      SequentialRunsKeepRest(ports, front);
      StepKeepsRest(ports, Exec(ports, Init(), front), actions[|actions| - 1]);
    }
  }

  // ---- The theorems ----

  /** Every status change is listed in the table of the query's kind, or cancels an open query; each raises the rank. */
  lemma StatusChangesAreAllowed(ports: Ports, actions: seq<Action>, k: nat)
    requires Sequential(ports, actions)
    requires k < |Exec(ports, Init(), actions).log| && Exec(ports, Init(), actions).log[k].Changed?
    ensures var log := Exec(ports, Init(), actions).log;
      var e := log[k];
      && Rank(e.from) < Rank(e.to)
      && exists terms: Terms :: HasTerms(log, terms) && terms.id == e.id && Allowed(e.from, e.to, terms.escrow.Some?)
  {
    SequentialRunsKeepRest(ports, actions);
    var log := Exec(ports, Init(), actions).log;
    var e := log[k];
    assert ChangeOk(log, e);
    var terms: Terms :| HasTerms(log, terms) && terms.id == e.id && Allowed(e.from, e.to, terms.escrow.Some?);
    AllowedRaisesRank(e.from, e.to, terms.escrow.Some?);
  }

  /** A query changes status at most four times. */
  lemma AtMostFourChanges(ports: Ports, actions: seq<Action>, id: string)
    requires Sequential(ports, actions)
    ensures Changes(Exec(ports, Init(), actions).log, id) <= 4
  {
    SequentialRunsKeepRest(ports, actions);
    assert CountOk(Exec(ports, Init(), actions), id);
  }

  /** The preimage of a hash is returned at most once. */
  lemma PreimageReturnedAtMostOnce(ports: Ports, actions: seq<Action>, i: nat, j: nat, hash: string)
    requires Sequential(ports, actions)
    requires RevealAt(Exec(ports, Init(), actions).log, i, hash) && RevealAt(Exec(ports, Init(), actions).log, j, hash)
    ensures i == j
  {
    SequentialRunsKeepRest(ports, actions);
  }

  /** A terminal record stays exactly as it is until it is deleted. */
  lemma TerminalRecordsNeverChange(ports: Ports, actions: seq<Action>, a: Action, id: string)
    requires Sequential(ports, actions + [a])
    requires id in Exec(ports, Init(), actions).store && Terminal(Exec(ports, Init(), actions).store[id].status)
    ensures var s, after := Exec(ports, Init(), actions), Exec(ports, Init(), actions + [a]);
      id in after.store ==> after.store[id] == s.store[id]
  {
    assert (actions + [a])[..|actions|] == actions;
    SequentialRunsKeepRest(ports, actions);
    var s := Exec(ports, Init(), actions);
    TerminalStays(ports, s, a, id);
  }

  lemma TerminalStays(ports: Ports, s: State, a: Action, id: string)
    requires Inv(s) && Rest(s) && Calm(s, a)
    requires id in s.store && Terminal(s.store[id].status)
    ensures var after := Step(ports, s, a); id in after.store ==> after.store[id] == s.store[id]
  {
    if a.Resume? {
      if a.task in s.tasks {
        assert TaskOk(s.log, a.task, s.tasks[a.task]) && Current(s, s.tasks[a.task]);
        ContinueWritesOwn(ports, s, a.task, s.tasks[a.task], a.reply, a.now, id);
      }
    } else {
      FreshStepKeepsTerminal(ports, s, a, id);
    }
  }
}
