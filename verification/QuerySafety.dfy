/** What every interleaved run of the query service keeps. */
module QuerySafety {
  import opened Wrappers
  import opened Query
  import opened Quorum
  import opened QueryMachine

  // ---- Facts about the log ----

  predicate CreatedAt(log: seq<Event>, c: nat, terms: Terms) {
    c < |log| && log[c].Created? && TermsOf(log[c].q) == terms
  }

  ghost predicate HasTerms(log: seq<Event>, terms: Terms) { exists c: nat :: CreatedAt(log, c, terms) }

  /** The panel was drawn by the registry rules for a query with these terms. */
  ghost predicate PanelFits(panel: Panel, terms: Terms) {
    exists order: seq<string>, requested: Option<string> ::
      NoDuplicates(order) && panel == Choose(order, terms.oracleIds, terms.quorum, requested)
  }

  predicate PassedAt(log: seq<Event>, i: nat, t: nat, id: string) {
    && i < |log| && log[i].Verified? && log[i].task == t && log[i].id == id
    && |log[i].answers| == |PanelIds(log[i].panel)| && Passes(log[i].panel, log[i].answers)
  }

  ghost predicate Passed(log: seq<Event>, t: nat, id: string) { exists i: nat :: PassedAt(log, i, t, id) }

  predicate NotVerified(log: seq<Event>, t: nat) {
    forall i: nat :: i < |log| && log[i].Verified? ==> log[i].task != t
  }

  /** A selected provider that lets this submitter through; an empty provider key lets anyone through. */
  ghost predicate Admitted(log: seq<Event>, id: string, submitter: string) {
    exists p: string :: Chosen(id, p) in log && (p == "" || p == submitter)
  }

  /** The query was created with this settlement. */
  ghost predicate SettledBy(log: seq<Event>, id: string, settlement: Settlement) {
    exists terms: Terms ::
      HasTerms(log, terms) && terms.id == id && terms.escrow.Some? && terms.escrow.value.0 == settlement
  }

  // ---- When an event is justified by what came before it ----

  ghost predicate CreationOk(past: seq<Event>, q: Record) {
    Paired(q) && Open(q.status) && forall c: nat :: c < |past| && past[c].Created? ==> past[c].q.id != q.id
  }

  ghost predicate VerificationOk(past: seq<Event>, e: Event)
    requires e.Verified?
  {
    && |e.answers| == |PanelIds(e.panel)|
    && NotVerified(past, e.task)
    && Admitted(past, e.id, e.submitter)
    && exists terms: Terms :: HasTerms(past, terms) && terms.id == e.id && PanelFits(e.panel, terms)
  }

  ghost predicate ReturnOk(past: seq<Event>, t: nat, id: string, o: Outcome) {
    && (o.preimage.None? || o.signature.None?)
    && (o.preimage.Some? || o.signature.Some? ==> o.ok)
    && (o.ok ==> Passed(past, t, id))
    && (o.preimage.Some? ==>
          exists hash: string :: SettledBy(past, id, Htlc(hash)) && Issued(hash, o.preimage.value) in past)
    && (o.signature.Some? ==> exists group: string :: SettledBy(past, id, Frost(group)))
  }

  ghost predicate Justified(past: seq<Event>, e: Event) {
    match e
    case Created(q) => CreationOk(past, q)
    case Verified(_, _, _, _, _) => VerificationOk(past, e)
    case Returned(t, id, o) => ReturnOk(past, t, id, o)
    case _ => true
  }

  ghost predicate JustifiedAt(log: seq<Event>, k: nat)
    requires k < |log|
  {
    Justified(log[..k], log[k])
  }

  ghost predicate LogOk(log: seq<Event>) { forall k: nat :: k < |log| ==> JustifiedAt(log, k) }

  // ---- The invariant ----

  predicate HasProvider(s: Status) { s.ProviderSelected? || s.Processing? || s.Verifying? }

  predicate ProviderOk(log: seq<Event>, q: Record) {
    HasProvider(q.status) ==>
      q.escrow.Some? && q.escrow.value.provider.Some? && Chosen(q.id, q.escrow.value.provider.value) in log
  }

  ghost predicate RecordOk(log: seq<Event>, q: Record) {
    Paired(q) && HasTerms(log, TermsOf(q)) && ProviderOk(log, q)
  }

  ghost predicate TaskOk(log: seq<Event>, t: nat, task: Task) {
    match task
    case AwaitAmount(q, _, _) => RecordOk(log, q) && q.status.AwaitingOffers?
    case AwaitLock(q, _, _) => RecordOk(log, q) && q.status.AwaitingOffers?
    case AwaitSimple(q, _, _) => RecordOk(log, q) && q.status.Pending?
    case AwaitVerdict(q, submitter, panel) =>
      && RecordOk(log, q) && q.status.Verifying?
      && PanelFits(panel, TermsOf(q)) && NotVerified(log, t)
      && (Present(q.escrow.value.provider) ==> q.escrow.value.provider.value == submitter)
    case AwaitRead(id, hash) => Passed(log, t, id) && SettledBy(log, id, Htlc(hash))
    case AwaitDelete(id, hash, preimage) =>
      Passed(log, t, id) && SettledBy(log, id, Htlc(hash)) && Issued(hash, preimage) in log
    case AwaitSignature(id, group) => Passed(log, t, id) && SettledBy(log, id, Frost(group))
  }

  ghost predicate StoreOk(s: State) {
    forall id :: id in s.store ==> s.store[id].id == id && RecordOk(s.log, s.store[id])
  }

  ghost predicate TasksOk(s: State) {
    forall t :: t in s.tasks ==> t < s.next && TaskOk(s.log, t, s.tasks[t])
  }

  predicate PreimagesOk(s: State) {
    forall h :: h in s.preimages ==> Issued(h, s.preimages[h]) in s.log
  }

  predicate FreshOk(s: State) {
    && NoDuplicates(s.order)
    && (forall c: nat :: c < |s.log| && s.log[c].Created? ==> s.log[c].q.id in s.used)
    && (forall i: nat :: i < |s.log| && s.log[i].Verified? ==> s.log[i].task < s.next)
  }

  ghost predicate Inv(s: State) {
    LogOk(s.log) && StoreOk(s) && TasksOk(s) && PreimagesOk(s) && FreshOk(s)
  }

  // ---- Growing the log ----

  lemma HasTermsGrows(log: seq<Event>, e: Event, terms: Terms)
    requires HasTerms(log, terms)
    ensures HasTerms(log + [e], terms)
  {
    var c: nat :| CreatedAt(log, c, terms);
    assert CreatedAt(log + [e], c, terms);
  }

  lemma PassedGrows(log: seq<Event>, e: Event, t: nat, id: string)
    requires Passed(log, t, id)
    ensures Passed(log + [e], t, id)
  {
    var i: nat :| PassedAt(log, i, t, id);
    assert PassedAt(log + [e], i, t, id);
  }

  lemma SettledGrows(log: seq<Event>, e: Event, id: string, settlement: Settlement)
    requires SettledBy(log, id, settlement)
    ensures SettledBy(log + [e], id, settlement)
  {
    var terms: Terms :| HasTerms(log, terms) && terms.id == id
      && terms.escrow.Some? && terms.escrow.value.0 == settlement;
    HasTermsGrows(log, e, terms);
  }

  lemma RecordOkGrows(log: seq<Event>, e: Event, q: Record)
    requires RecordOk(log, q)
    ensures RecordOk(log + [e], q)
  {
    HasTermsGrows(log, e, TermsOf(q));
  }

  lemma TaskOkGrows(log: seq<Event>, e: Event, t: nat, task: Task)
    requires TaskOk(log, t, task)
    requires e.Verified? ==> e.task != t
    ensures TaskOk(log + [e], t, task)
  {
    match task
    case AwaitAmount(q, _, _) => RecordOkGrows(log, e, q);
    case AwaitLock(q, _, _) => RecordOkGrows(log, e, q);
    case AwaitSimple(q, _, _) => RecordOkGrows(log, e, q);
    case AwaitVerdict(q, _, _) => RecordOkGrows(log, e, q);
    case AwaitRead(id, hash) =>
      PassedGrows(log, e, t, id);
      SettledGrows(log, e, id, Htlc(hash));
    case AwaitDelete(id, hash, _) =>
      PassedGrows(log, e, t, id);
      SettledGrows(log, e, id, Htlc(hash));
    case AwaitSignature(id, group) =>
      PassedGrows(log, e, t, id);
      SettledGrows(log, e, id, Frost(group));
  }

  lemma LogOkGrows(log: seq<Event>, e: Event)
    requires LogOk(log) && Justified(log, e)
    ensures LogOk(log + [e])
  {
    var after := log + [e];
    forall k: nat | k < |after|
      ensures JustifiedAt(after, k)
    {
      if k < |log| {
        assert after[..k] == log[..k];
        assert JustifiedAt(log, k);
      } else {
        assert after[..k] == log;
      }
    }
  }

  /** Logging a justified event keeps the invariant, if every live task stays unverified or moves on by itself. */
  lemma LogKeepsInv(s: State, e: Event)
    requires Inv(s) && Justified(s.log, e)
    requires e.Created? ==> e.q.id in s.used
    requires e.Verified? ==> e.task < s.next && e.task !in s.tasks
    ensures Inv(Log(s, e))
  {
    var after := Log(s, e);
    LogOkGrows(s.log, e);
    forall id | id in after.store
      ensures after.store[id].id == id && RecordOk(after.log, after.store[id])
    {
      RecordOkGrows(s.log, e, s.store[id]);
    }
    forall t | t in after.tasks
      ensures t < after.next && TaskOk(after.log, t, after.tasks[t])
    {
      TaskOkGrows(s.log, e, t, s.tasks[t]);
    }
  }

  // ---- Primitive steps keep the invariant ----

  lemma WriteKeepsInv(s: State, q: Record)
    requires Inv(s) && RecordOk(s.log, q)
    ensures Inv(Write(s, q))
    ensures s.log <= Write(s, q).log && |Write(s, q).log| <= |s.log| + 1
    ensures RecordOk(Write(s, q).log, q)
  {
    var t := s.(store := s.store[q.id := q]);
    assert Inv(t);
    if q.id in s.store && s.store[q.id].status != q.status {
      LogKeepsInv(t, Changed(q.id, s.store[q.id].status, q.status));
      RecordOkGrows(s.log, Changed(q.id, s.store[q.id].status, q.status), q);
    }
  }

  /** A good move keeps a record well-formed, when it does not claim a provider it was not given. */
  lemma GoodMoveKeepsRecord(log: seq<Event>, q: Record, r: Record)
    requires RecordOk(log, q) && GoodMove(q, r)
    requires HasProvider(r.status) ==> HasProvider(q.status) && r.escrow == q.escrow
    ensures RecordOk(log, r)
  {
  }

  lemma MoveKeepsRecord(log: seq<Event>, q: Record, a: Action)
    requires RecordOk(log, q) && Synchronous(a) && Move(q, a).Ok?
    ensures GoodMove(q, Move(q, a).value)
    ensures RecordOk(log, Move(q, a).value)
  {
    GoodMoveKeepsRecord(log, q, Move(q, a).value);
  }

  lemma UpdateKeepsInv(s: State, a: Action)
    requires Inv(s) && Synchronous(a)
    ensures Inv(Update(s, a))
  {
    if a.id in s.store {
      var r := Move(s.store[a.id], a);
      if r.Ok? {
        MoveKeepsRecord(s.log, s.store[a.id], a);
        WriteKeepsInv(s, r.value);
      }
    }
  }

  lemma SpawnKeepsInv(s: State, task: Task)
    requires Inv(s) && TaskOk(s.log, s.next, task)
    ensures Inv(Spawn(s, task))
  {
  }

  lemma BecomeKeepsInv(s: State, t: nat, task: Task)
    requires Inv(s) && t < s.next && TaskOk(s.log, t, task)
    ensures Inv(Become(s, t, task))
  {
  }

  lemma EndKeepsInv(s: State, t: nat)
    requires Inv(s)
    ensures Inv(End(s, t))
  {
  }

  lemma ReturnKeepsInv(s: State, t: nat, id: string, o: Outcome)
    requires Inv(s) && ReturnOk(s.log, t, id, o)
    ensures Inv(Return(s, t, id, o))
  {
    LogKeepsInv(End(s, t), Returned(t, id, o));
  }

  lemma ChosenKeepsRecord(log: seq<Event>, q: Record, provider: string, u: Updates)
    requires RecordOk(log, q) && SelectProvider(q, provider, u).Ok?
    ensures RecordOk(log + [Chosen(q.id, provider)], SelectProvider(q, provider, u).value)
  {
    HasTermsGrows(log, Chosen(q.id, provider), TermsOf(q));
  }

  /** Committing a selection: the record and the choice are written in one synchronous step. */
  lemma CommitSelectionKeepsInv(s: State, q: Record, provider: string, u: Updates)
    requires Inv(s) && RecordOk(s.log, q)
    ensures Inv(CommitSelection(s, q, provider, u))
  {
    var r := SelectProvider(q, provider, u);
    if r.Ok? {
      var e := Chosen(q.id, provider);
      LogKeepsInv(s, e);
      ChosenKeepsRecord(s.log, q, provider, u);
      WriteKeepsInv(Log(s, e), r.value);
    }
  }

  lemma BeginSelectKeepsInv(ports: Ports, s: State, q: Record, provider: string, token: Option<string>)
    requires Inv(s) && RecordOk(s.log, q)
    ensures Inv(BeginSelect(ports, s, q, provider, token))
  {
    if SelectProvider(q, provider, Updates(None, None)).Ok? {
      assert TaskOk(s.log, s.next, AwaitAmount(q, provider, token));
      assert TaskOk(s.log, s.next, AwaitLock(q, provider, Updates(token, None)));
      SpawnKeepsInv(s, AwaitAmount(q, provider, token));
      SpawnKeepsInv(s, AwaitLock(q, provider, Updates(token, None)));
      CommitSelectionKeepsInv(s, q, provider, Updates(token, None));
    }
  }

  lemma BeginSimpleKeepsInv(s: State, q: Record, result: string, oracle: Option<string>, now: int)
    requires Inv(s) && RecordOk(s.log, q)
    ensures Inv(BeginSimple(s, q, result, oracle, now))
  {
    if q.status.Pending? {
      if q.expiresAt < now {
        WriteKeepsInv(s, q.(status := Expired, payment := Cancelled));
      } else {
        SpawnKeepsInv(s, AwaitSimple(q, result, Choose(s.order, q.oracleIds, q.quorum, oracle)));
      }
    }
  }

  lemma RecordResultKeepsRecord(log: seq<Event>, q: Record, result: string, provider: string, now: int)
    requires RecordOk(log, q) && RecordResult(q, result, provider, now).Ok?
    ensures var r := RecordResult(q, result, provider, now).value;
      RecordOk(log, r) && r.status.Verifying? && TermsOf(r) == TermsOf(q)
      && (Present(r.escrow.value.provider) ==> r.escrow.value.provider.value == provider)
  {
  }

  lemma NextIsNotVerified(s: State)
    requires FreshOk(s)
    ensures NotVerified(s.log, s.next)
  {
  }

  lemma BeginEscrowKeepsInv(s: State, q: Record, result: string, provider: string, oracle: Option<string>, now: int)
    requires Inv(s) && RecordOk(s.log, q)
    ensures Inv(BeginEscrow(s, q, result, provider, oracle, now))
  {
    var r := RecordResult(q, result, provider, now);
    if r.Err? {
      RefusalKeepsInv(s, q.id);
    } else {
      var panel := Choose(s.order, q.oracleIds, q.quorum, oracle);
      RecordResultKeepsRecord(s.log, q, result, provider, now);
      WriteKeepsInv(s, r.value);
      var w := Write(s, r.value);
      assert PanelFits(panel, TermsOf(r.value));
      NextIsNotVerified(w);
      SpawnKeepsInv(w, AwaitVerdict(r.value, provider, panel));
    }
  }

  lemma RefusalKeepsInv(s: State, id: string)
    requires Inv(s)
    ensures Inv(Log(s.(next := s.next + 1), Returned(s.next, id, Outcome(false, None, None))))
  {
    LogKeepsInv(s.(next := s.next + 1), Returned(s.next, id, Outcome(false, None, None)));
  }

  // ---- Resumed calls ----

  lemma AmountKeepsInv(s: State, t: nat, valid: bool, sats: Option<int>)
    requires Inv(s) && t in s.tasks && s.tasks[t].AwaitAmount?
    ensures Inv(ContinueAmount(s, t, s.tasks[t], valid, sats))
  {
    var task := s.tasks[t];
    var u := Updates(task.token, Some(sats));
    EndKeepsInv(s, t);
    assert TaskOk(s.log, t, task);
    BecomeKeepsInv(s, t, AwaitLock(task.q, task.provider, u));
    CommitSelectionKeepsInv(End(s, t), task.q, task.provider, u);
  }

  lemma FinalizeKeepsRecord(
    log: seq<Event>, q: Record, passed: bool, attestations: seq<Attestation>, result: Option<string>, at: Option<int>)
    requires RecordOk(log, q) && (q.status.Pending? || q.status.Verifying?)
    ensures RecordOk(log, Finalize(q, passed, attestations).(result := result, submittedAt := at))
    ensures RecordOk(log, Finalize(q, passed, attestations))
  {
  }

  lemma SimpleKeepsInv(s: State, t: nat, answers: seq<bool>, now: int)
    requires Inv(s) && t in s.tasks && s.tasks[t].AwaitSimple? && |answers| == |PanelIds(s.tasks[t].panel)|
    ensures Inv(ContinueSimple(s, t, s.tasks[t], answers, now))
  {
    var task := s.tasks[t];
    var passed := Passes(task.panel, answers);
    var attestations := Attestations(PanelIds(task.panel), answers);
    assert TaskOk(s.log, t, task);
    EndKeepsInv(s, t);
    FinalizeKeepsRecord(s.log, task.q, passed, attestations, Some(task.result), Some(now));
    WriteKeepsInv(End(s, t), Finalize(task.q, passed, attestations).(
                               result := Some(task.result), submittedAt := Some(now)));
  }

  /** The verdict event: admitted submitter, fitting panel, first verdict of this call. */
  lemma VerdictIsJustified(s: State, t: nat, answers: seq<bool>)
    requires Inv(s) && t in s.tasks && s.tasks[t].AwaitVerdict? && |answers| == |PanelIds(s.tasks[t].panel)|
    ensures var task := s.tasks[t];
      Justified(s.log, Verified(t, task.q.id, task.submitter, task.panel, answers))
  {
    var task := s.tasks[t];
    assert TaskOk(s.log, t, task);
    assert Admitted(s.log, task.q.id, task.submitter) by {
      assert ProviderOk(s.log, task.q);
      var p := task.q.escrow.value.provider.value;
      assert Chosen(task.q.id, p) in s.log && (p == "" || p == task.submitter);
    }
    assert HasTerms(s.log, TermsOf(task.q)) && TermsOf(task.q).id == task.q.id;
  }

  lemma VerdictIsLogged(s: State, t: nat, answers: seq<bool>)
    requires Inv(s) && t in s.tasks && s.tasks[t].AwaitVerdict? && |answers| == |PanelIds(s.tasks[t].panel)|
    ensures var task := s.tasks[t];
      var e := Verified(t, task.q.id, task.submitter, task.panel, answers);
      && Inv(Log(End(s, t), e))
      && RecordOk(s.log + [e], task.q)
      && (Passes(task.panel, answers) ==> Passed(s.log + [e], t, task.q.id))
  {
    var task := s.tasks[t];
    var e := Verified(t, task.q.id, task.submitter, task.panel, answers);
    assert TaskOk(s.log, t, task);
    VerdictIsJustified(s, t, answers);
    EndKeepsInv(s, t);
    LogKeepsInv(End(s, t), e);
    RecordOkGrows(s.log, e, task.q);
    assert Passes(task.panel, answers) ==> PassedAt(s.log + [e], |s.log|, t, task.q.id);
  }

  lemma SettleKeepsInv(ports: Ports, s: State, t: nat, q: Record, passed: bool)
    requires Inv(s) && t < s.next && RecordOk(s.log, q) && (passed ==> Passed(s.log, t, q.id))
    ensures Inv(Settle(ports, s, t, q, passed))
  {
    if q.escrow.Some? {
      assert SettledBy(s.log, q.id, q.escrow.value.settlement) by {
        assert HasTerms(s.log, TermsOf(q)) && TermsOf(q).escrow.value.0 == q.escrow.value.settlement;
      }
    }
    if passed && q.escrow.Some? && HasHash(q.escrow.value) && ports.preimages {
      BecomeKeepsInv(s, t, AwaitRead(q.id, q.escrow.value.settlement.hash));
    } else if passed && q.escrow.Some? && q.escrow.value.settlement.Frost? && ports.frost {
      BecomeKeepsInv(s, t, AwaitSignature(q.id, q.escrow.value.settlement.group));
    } else {
      ReturnKeepsInv(s, t, q.id, Outcome(passed, None, None));
    }
  }

  /** The entry of the resumed call is overwritten or removed in the same step, so ending it first changes nothing. */
  lemma SettleAfterEnd(ports: Ports, s: State, t: nat, q: Record, passed: bool, e: Event)
    ensures Settle(ports, Write(Log(End(s, t), e), q), t, q, passed) == Settle(ports, Write(Log(s, e), q), t, q, passed)
  {
    assert Write(Log(End(s, t), e), q) == End(Write(Log(s, e), q), t);
    SettleIgnoresTask(ports, Write(Log(s, e), q), t, q, passed);
  }

  /** Settling replaces the call's own task, so it does not matter whether that task was ended before. */
  lemma SettleIgnoresTask(ports: Ports, w: State, t: nat, q: Record, passed: bool)
    ensures Settle(ports, End(w, t), t, q, passed) == Settle(ports, w, t, q, passed)
  {
    assert End(End(w, t), t) == End(w, t);
    assert forall task :: Become(End(w, t), t, task).tasks == Become(w, t, task).tasks;
  }

  lemma VerdictKeepsInv(ports: Ports, s: State, t: nat, answers: seq<bool>)
    requires Inv(s) && t in s.tasks && s.tasks[t].AwaitVerdict? && |answers| == |PanelIds(s.tasks[t].panel)|
    ensures Inv(ContinueVerdict(ports, s, t, s.tasks[t], answers))
  {
    var task := s.tasks[t];
    var passed := Passes(task.panel, answers);
    var e := Verified(t, task.q.id, task.submitter, task.panel, answers);
    var attestations := Attestations(PanelIds(task.panel), answers);
    var final := Finalize(task.q, passed, attestations);
    var logged := Log(End(s, t), e);
    assert TaskOk(s.log, t, task);
    VerdictIsLogged(s, t, answers);
    FinalizeKeepsRecord(logged.log, task.q, passed, attestations, None, None);
    WriteKeepsInv(logged, final);
    var w := Write(logged, final);
    if passed {
      PassedInLonger(logged.log, w.log, t, task.q.id);
    }
    SettleKeepsInv(ports, w, t, final, passed);
    SettleAfterEnd(ports, s, t, final, passed, e);
  }

  lemma PassedInLonger(log: seq<Event>, longer: seq<Event>, t: nat, id: string)
    requires Passed(log, t, id) && log <= longer
    ensures Passed(longer, t, id)
  {
    var i: nat :| PassedAt(log, i, t, id);
    assert PassedAt(longer, i, t, id);
  }

  lemma FetchKeepsInv(s: State, t: nat)
    requires Inv(s) && t in s.tasks
    ensures s.tasks[t].AwaitRead? ==> Inv(ContinueRead(s, t, s.tasks[t]))
    ensures s.tasks[t].AwaitDelete? ==> Inv(ContinueDelete(s, t, s.tasks[t]))
  {
    var task := s.tasks[t];
    assert TaskOk(s.log, t, task);
    if task.AwaitRead? {
      var e := Read(t, task.hash, Stored(s, task.hash));
      LogKeepsInv(s, e);
      TaskOkGrows(s.log, e, t, task);
      if Stored(s, task.hash) {
        BecomeKeepsInv(Log(s, e), t, AwaitDelete(task.id, task.hash, s.preimages[task.hash]));
      } else {
        ReturnKeepsInv(Log(s, e), t, task.id, Outcome(true, None, None));
      }
    } else if task.AwaitDelete? {
      var dropped := s.(preimages := s.preimages - {task.hash});
      assert Inv(dropped);
      ReturnKeepsInv(dropped, t, task.id, Outcome(true, Some(task.preimage), None));
    }
  }

  lemma SignatureKeepsInv(s: State, t: nat, signatures: Option<seq<string>>)
    requires Inv(s) && t in s.tasks && s.tasks[t].AwaitSignature?
    ensures Inv(ContinueSignature(s, t, s.tasks[t], signatures))
  {
    var e := Replied(t, signatures.Some?);
    LogKeepsInv(s, e);
    TaskOkGrows(s.log, e, t, s.tasks[t]);
    ReturnKeepsInv(Log(s, e), t, s.tasks[t].id, Outcome(true, None, signatures));
  }

  lemma ContinueKeepsInv(ports: Ports, s: State, t: nat, reply: Reply, now: int)
    requires Inv(s) && t in s.tasks
    ensures Inv(Continue(ports, s, t, s.tasks[t], reply, now))
  {
    var task := s.tasks[t];
    EndKeepsInv(s, t);
    if reply.Throws? {
      if task.AwaitSignature? {
        SignatureKeepsInv(s, t, None);
      }
    } else {
      match task
      case AwaitAmount(_, _, _) =>
        if reply.Amount? {
          AmountKeepsInv(s, t, reply.valid, reply.sats);
        }
      case AwaitLock(q, provider, u) =>
        assert TaskOk(s.log, t, task);
        CommitSelectionKeepsInv(End(s, t), q, provider, u);
      case AwaitSimple(_, _, panel) =>
        if reply.Answers? && |reply.answers| == |PanelIds(panel)| {
          SimpleKeepsInv(s, t, reply.answers, now);
        }
      case AwaitVerdict(_, _, panel) =>
        if reply.Answers? && |reply.answers| == |PanelIds(panel)| {
          VerdictKeepsInv(ports, s, t, reply.answers);
        }
      case AwaitRead(_, _) => FetchKeepsInv(s, t);
      case AwaitDelete(_, _, _) => FetchKeepsInv(s, t);
      case AwaitSignature(_, _) =>
        if reply.Signatures? {
          SignatureKeepsInv(s, t, reply.signatures);
        }
    }
  }

  // ---- Every run ----

  lemma CreateKeepsInv(s: State, id: string, o: Options, now: int)
    requires Inv(s)
    ensures Inv(DoCreateStep(s, id, o, now))
  {
    var r := Create(id, o, now);
    if id !in s.used && r.Ok? {
      var q := r.value;
      var e := Created(q);
      CreatedIsPaired(id, o, now);
      assert Justified(s.log, e);
      var marked := s.(used := s.used + {id});
      MarkKeepsInv(s, id);
      LogKeepsInv(marked, e);
      assert CreatedAt(s.log + [e], |s.log|, TermsOf(q));
      StoreKeepsInv(Log(marked, e), q);
      assert DoCreateStep(s, id, o, now) == Log(marked, e).(store := s.store[id := q]);
    }
  }

  lemma MarkKeepsInv(s: State, id: string)
    requires Inv(s)
    ensures Inv(s.(used := s.used + {id}))
  {
  }

  lemma StoreKeepsInv(s: State, q: Record)
    requires Inv(s) && RecordOk(s.log, q)
    ensures Inv(s.(store := s.store[q.id := q]))
  {
  }

  lemma IssueKeepsInv(ports: Ports, s: State, hash: string, preimage: string)
    requires Inv(s)
    ensures Inv(Step(ports, s, DoIssue(hash, preimage)))
  {
    if hash !in s.issued {
      var marked := s.(issued := s.issued + {hash});
      assert Inv(marked);
      LogKeepsInv(marked, Issued(hash, preimage));
    }
  }

  lemma RegisterKeepsInv(ports: Ports, s: State, name: string)
    requires Inv(s)
    ensures Inv(Step(ports, s, DoRegister(name)))
  {
  }

  lemma DropKeepsInv(s: State, store: map<string, Record>)
    requires Inv(s) && forall id :: id in store ==> id in s.store && store[id] == s.store[id]
    ensures Inv(s.(store := store))
  {
  }

  predicate Starts(a: Action) { a.StartSelect? || a.StartSimple? || a.StartEscrow? }

  lemma StartSelectKeepsInv(ports: Ports, s: State, id: string, provider: string, token: Option<string>)
    requires Inv(s)
    ensures Inv(Step(ports, s, StartSelect(id, provider, token)))
  {
    if id in s.store {
      BeginSelectKeepsInv(ports, s, s.store[id], provider, token);
    }
  }

  lemma StartSimpleKeepsInv(ports: Ports, s: State, id: string, result: string, oracle: Option<string>, now: int)
    requires Inv(s)
    ensures Inv(Step(ports, s, StartSimple(id, result, oracle, now)))
  {
    if id in s.store {
      BeginSimpleKeepsInv(s, s.store[id], result, oracle, now);
    }
  }

  lemma StartEscrowKeepsInv(
    ports: Ports, s: State, id: string, result: string, provider: string, oracle: Option<string>, now: int)
    requires Inv(s)
    ensures Inv(Step(ports, s, StartEscrow(id, result, provider, oracle, now)))
  {
    if id in s.store {
      BeginEscrowKeepsInv(s, s.store[id], result, provider, oracle, now);
    } else {
      RefusalKeepsInv(s, id);
    }
  }

  lemma StepKeepsInv(ports: Ports, s: State, a: Action)
    requires Inv(s)
    ensures Inv(Step(ports, s, a))
  {
    match a
    case DoCreate(id, o, now) => CreateKeepsInv(s, id, o, now);
    case DoIssue(hash, preimage) => IssueKeepsInv(ports, s, hash, preimage);
    case DoRegister(name) => RegisterKeepsInv(ports, s, name);
    case DoPurge(id) => DropKeepsInv(s, s.store - {id});
    case DoClear => DropKeepsInv(s, map[]);
    case StartSelect(id, provider, token) => StartSelectKeepsInv(ports, s, id, provider, token);
    case StartSimple(id, result, oracle, now) => StartSimpleKeepsInv(ports, s, id, result, oracle, now);
    case StartEscrow(id, result, provider, oracle, now) => StartEscrowKeepsInv(ports, s, id,
      result, provider, oracle, now);
    case Resume(t, reply, now) =>
      if t in s.tasks {
        ContinueKeepsInv(ports, s, t, reply, now);
      }
    case _ => UpdateKeepsInv(s, a);
  }

  lemma {:induction false} EveryRunKeepsInv(ports: Ports, actions: seq<Action>)
    ensures Inv(Exec(ports, Init(), actions))
  {
    if actions != [] {
      EveryRunKeepsInv(ports, actions[..|actions| - 1]);
      StepKeepsInv(ports, Exec(ports, Init(), actions[..|actions| - 1]), actions[|actions| - 1]);
    }
  }

  // ---- The theorems ----

  lemma LaterCreationDiffers(log: seq<Event>, c: nat, d: nat)
    requires LogOk(log) && c < d < |log| && log[c].Created? && log[d].Created?
    ensures log[c].q.id != log[d].q.id
  {
    assert JustifiedAt(log, d);
    assert log[..d][c] == log[c];
  }

  /** One creation per id. */
  lemma CreationsAreUnique(log: seq<Event>, c: nat, d: nat)
    requires LogOk(log) && c < |log| && d < |log| && log[c].Created? && log[d].Created? && log[c].q.id == log[d].q.id
    ensures c == d
  {
    if c < d {
      LaterCreationDiffers(log, c, d);
    } else if d < c {
      LaterCreationDiffers(log, d, c);
    }
  }

  /**
   In every interleaved run, each stored record has a payment status matching its status and kind, and still has the
   terms of the one creation of its id.
   */
  lemma StoredRecordsAreConsistent(ports: Ports, actions: seq<Action>, id: string)
    requires id in Exec(ports, Init(), actions).store
    ensures var s := Exec(ports, Init(), actions);
      && Paired(s.store[id])
      && s.store[id].id == id
      && exists c: nat :: c < |s.log| && s.log[c].Created? && TermsOf(s.log[c].q) == TermsOf(s.store[id])
                       && forall d: nat :: d < |s.log| && s.log[d].Created? && s.log[d].q.id == id ==> d == c
  {
    EveryRunKeepsInv(ports, actions);
    var s := Exec(ports, Init(), actions);
    assert RecordOk(s.log, s.store[id]);
    var c: nat :| CreatedAt(s.log, c, TermsOf(s.store[id]));
    assert TermsOf(s.log[c].q).id == id;
    forall d: nat | d < |s.log| && s.log[d].Created? && s.log[d].q.id == id
      ensures d == c
    {
      CreationsAreUnique(s.log, c, d);
    }
  }

  /** What a passing verification rests on: the one verdict of that call, its submitter, its panel. */
  ghost predicate RestsOn(log: seq<Event>, i: nat, t: nat, id: string) {
    && PassedAt(log, i, t, id)
    && (forall j: nat :: j < |log| && log[j].Verified? && log[j].task == t ==> j >= i)
    && Admitted(log[..i], id, log[i].submitter)
    && exists terms: Terms :: HasTerms(log[..i], terms) && terms.id == id && PanelFits(log[i].panel, terms)
  }

  lemma PassedRests(log: seq<Event>, i: nat, t: nat, id: string)
    requires LogOk(log) && PassedAt(log, i, t, id)
    ensures RestsOn(log, i, t, id)
  {
    assert JustifiedAt(log, i);
    forall j: nat | j < |log| && log[j].Verified? && log[j].task == t
      ensures j >= i
    {
      if j < i {
        LaterVerdictDiffers(log, j, i);
      }
    }
  }

  lemma LaterVerdictDiffers(log: seq<Event>, j: nat, i: nat)
    requires LogOk(log) && j < i < |log| && log[j].Verified? && log[i].Verified?
    ensures log[j].task != log[i].task
  {
    assert JustifiedAt(log, i);
    assert log[..i][j] == log[j];
  }

  /**
   Release safety over every interleaved run. A submission returns a preimage or signatures only if it succeeded, never
   both, and a success rests on an earlier passing verification of that very call, whose submitter an earlier selection
   admitted and whose panel follows the query's terms. A returned preimage was issued for the hash fixed at creation.
   */
  lemma ReleaseSafety(ports: Ports, actions: seq<Action>, k: nat)
    requires k < |Exec(ports, Init(), actions).log| && Exec(ports, Init(), actions).log[k].Returned?
    ensures var log := Exec(ports, Init(), actions).log;
      var t, id, o := log[k].task, log[k].id, log[k].outcome;
      && (o.preimage.None? || o.signature.None?)
      && (o.preimage.Some? || o.signature.Some? ==> o.ok)
      && (o.ok ==> exists i: nat :: i < k && RestsOn(log, i, t, id))
      && (o.preimage.Some? ==>
            exists hash: string :: SettledBy(log[..k], id, Htlc(hash)) && Issued(hash, o.preimage.value) in log[..k])
      && (o.signature.Some? ==> exists group: string :: SettledBy(log[..k], id, Frost(group)))
  {
    EveryRunKeepsInv(ports, actions);
    var log := Exec(ports, Init(), actions).log;
    var t, id, o := log[k].task, log[k].id, log[k].outcome;
    assert JustifiedAt(log, k);
    if o.ok {
      var i: nat :| PassedAt(log[..k], i, t, id);
      assert log[..k][i] == log[i];
      PassedRests(log, i, t, id);
    }
  }

  /**
   The quorum behind a success. For a query created with min_approvals and a duplicate-free oracle list, or none,
   the passing panel holds at least min_approvals distinct approvers, all of them on the list if there is one.
   */
  lemma SuccessHasQuorum(ports: Ports, actions: seq<Action>, i: nat, t: nat, id: string, c: nat)
    requires RestsOn(Exec(ports, Init(), actions).log, i, t, id)
    requires c < |Exec(ports, Init(), actions).log| && Exec(ports, Init(), actions).log[c].Created?
    requires Exec(ports, Init(), actions).log[c].q.id == id && Exec(ports, Init(), actions).log[c].q.quorum.Some?
    requires IsList(Exec(ports, Init(), actions).log[c].q.oracleIds) ==>
      NoDuplicates(Exec(ports, Init(), actions).log[c].q.oracleIds.value)
    ensures var log := Exec(ports, Init(), actions).log;
      var q := log[c].q;
      && log[i].panel.Many?
      && |Approvers(log[i].panel.ids, log[i].answers)| >= q.quorum.value
      && (IsList(q.oracleIds) ==>
            forall x :: x in Approvers(log[i].panel.ids, log[i].answers) ==> x in q.oracleIds.value)
  {
    EveryRunKeepsInv(ports, actions);
    var log := Exec(ports, Init(), actions).log;
    var terms: Terms :| HasTerms(log[..i], terms) && terms.id == id && PanelFits(log[i].panel, terms);
    var d: nat :| CreatedAt(log[..i], d, terms);
    assert log[..i][d] == log[d];
    CreationsAreUnique(log, c, d);
    assert terms == TermsOf(log[c].q);
    var order: seq<string>, requested: Option<string> :|
      NoDuplicates(order) && log[i].panel == Choose(order, terms.oracleIds, terms.quorum, requested);
    QuorumPassIff(order, terms.oracleIds, terms.quorum.value, requested, log[i].answers);
  }
}
