/**
 Which hash a query is answered with. A request draws a preimage when its query has no recorded hash, and
 records the hash only after an await; a delivered query's record is dropped. Whether all answers agree
 therefore depends on when requests start.
 */
module OracleHashes {
  import opened Wrappers
  import opened OracleDaemon
  import opened OracleRetention

  // ---- Answers given and answers under way ----

  /** An answer for q; `relayOnly` leaves out what the host was told. */
  predicate Told(e: Event, q: string, h: string, relayOnly: bool) {
    e == Answered(q, h) || (!relayOnly && e == HostAnswered(q, h))
  }

  /** A suspended request that will answer q with h. */
  predicate Carries(t: Task, q: string, h: string, relayOnly: bool) {
    match t
    case Issuing(id, hash, viaRelay) => id == q && hash == h && (relayOnly ==> viaRelay)
    case Answering(id, hash) => id == q && hash == h
    case HostReturning(id, hash) => id == q && hash == h && !relayOnly
    case _ => false
  }

  predicate ToldIn(log: seq<Event>, q: string, h: string, relayOnly: bool) {
    Answered(q, h) in log || (!relayOnly && HostAnswered(q, h) in log)
  }

  predicate CarriedIn(tasks: map<nat, Task>, q: string, h: string, relayOnly: bool) {
    exists t :: t in tasks && Carries(tasks[t], q, h, relayOnly)
  }

  /** h was answered for q, or will be once the suspended requests return. */
  predicate Promised(s: State, q: string, h: string, relayOnly: bool) {
    ToldIn(s.log, q, h, relayOnly) || CarriedIn(s.tasks, q, h, relayOnly)
  }

  ghost predicate Agree(s: State, q: string, relayOnly: bool) {
    forall h, h' :: Promised(s, q, h, relayOnly) && Promised(s, q, h', relayOnly) ==> h == h'
  }

  /** The request starts a new answer for q. */
  predicate Asks(s: State, a: Action, sha: string -> string, q: string, relayOnly: bool) {
    a.RequestHash? && Enabled(s, a, sha) && a.queryId == q && (relayOnly ==> a.viaRelay)
  }

  /** The hash a request will be answered with. */
  function Given(s: State, a: Action): string
    requires a.RequestHash?
  {
    if a.viaRelay && a.queryId in s.answered then s.answered[a.queryId]
    else if a.queryId in s.hashOf then s.hashOf[a.queryId]
    else a.hash
  }

  lemma ToldGrows(log: seq<Event>, e: Event, q: string, h: string, relayOnly: bool)
    ensures ToldIn(log + [e], q, h, relayOnly) <==> ToldIn(log, q, h, relayOnly) || Told(e, q, h, relayOnly)
  {
    assert forall f :: f in log + [e] <==> f in log || f == e;
  }

  predicate ToldBy(e: Option<Event>, q: string, h: string, relayOnly: bool) {
    e.Some? && Told(e.value, q, h, relayOnly)
  }

  predicate CarriedBy(t: Option<Task>, q: string, h: string, relayOnly: bool) {
    t.Some? && Carries(t.value, q, h, relayOnly)
  }

  /** Replacing a task adds what the event tells and the new task carries, when it carries no less than the old. */
  lemma ReplacePromises(s: State, e: Option<Event>, id: nat, t: Option<Task>, q: string, h: string, relayOnly: bool)
    requires id in s.tasks && Carries(s.tasks[id], q, h, relayOnly) ==>
      ToldBy(e, q, h, relayOnly) || CarriedBy(t, q, h, relayOnly)
    ensures Promised(SetTask(RecordIf(s, e), id, t), q, h, relayOnly) <==>
      Promised(s, q, h, relayOnly) || ToldBy(e, q, h, relayOnly) || CarriedBy(t, q, h, relayOnly)
  {
    var s1 := SetTask(RecordIf(s, e), id, t);
    RecordIfFrame(s, e);
    if e.Some? {
      ToldGrows(s.log, e.value, q, h, relayOnly);
    }
    if CarriedIn(s.tasks, q, h, relayOnly) {
      var u :| u in s.tasks && Carries(s.tasks[u], q, h, relayOnly);
      assert u != id ==> u in s1.tasks && Carries(s1.tasks[u], q, h, relayOnly);
    }
    if CarriedBy(t, q, h, relayOnly) {
      assert id in s1.tasks && Carries(s1.tasks[id], q, h, relayOnly);
    }
  }

  /** A resumed request passes its hash on; nothing else starts an answer. */
  lemma ResumeCarries(s: State, t: Task, verdict: bool, q: string, h: string, relayOnly: bool)
    ensures Carries(t, q, h, relayOnly) <==>
      ToldBy(Happens(t, verdict), q, h, relayOnly) || CarriedBy(Next(s, t, verdict), q, h, relayOnly)
  {
  }

  lemma RequestPromises(s: State, a: Action, sha: string -> string, q: string, h: string, relayOnly: bool)
    requires a.RequestHash? && Enabled(s, a, sha)
    ensures Promised(OnHashRequest(s, a), q, h, relayOnly) <==>
      Promised(s, q, h, relayOnly) || (Asks(s, a, sha, q, relayOnly) && Given(s, a) == h)
  {
    if a.viaRelay && a.queryId in s.answered {
      var e := Answered(a.queryId, s.answered[a.queryId]);
      RecordFrame(s, e);
      ToldGrows(s.log, e, q, h, relayOnly);
    } else if a.queryId in s.hashOf {
      var t := Returning(a.queryId, s.hashOf[a.queryId], a.viaRelay);
      ReplacePromises(s, None, a.task, Some(t), q, h, relayOnly);
    } else {
      var e := Created(a.queryId, a.hash, a.preimage);
      ReplacePromises(s, Some(e), a.task, Some(Issuing(a.queryId, a.hash, a.viaRelay)), q, h, relayOnly);
    }
  }

  /** Answers are never withdrawn, and a step adds only the hash its own request is given. */
  lemma StepPromises(s: State, a: Action, sha: string -> string, q: string, h: string, relayOnly: bool)
    ensures Promised(Step(s, a, sha), q, h, relayOnly) <==>
      Promised(s, q, h, relayOnly) || (Asks(s, a, sha, q, relayOnly) && Given(s, a) == h)
  {
    if Enabled(s, a, sha) {
      match a
      case RequestHash(_, _, _, _, _) => RequestPromises(s, a, sha, q, h, relayOnly);
      case Resume(t, verdict) =>
        ResumeCarries(s, s.tasks[t], verdict, q, h, relayOnly);
        ReplacePromises(s, Happens(s.tasks[t], verdict), t, Next(s, s.tasks[t], verdict), q, h, relayOnly);
      case ResultEvent(t, _, _, _) =>
        var sub := Accepts(s, a);
        if sub.Some? {
          ReplacePromises(s, Some(Taken(sub.value, a.payload.value)), t, Some(Dispatch(s, sub.value)), q, h, relayOnly);
        }
      case HostDeliver(t, id, query, p) =>
        ReplacePromises(s, None, t, Some(Dispatch(s, Submission(query, id, p, FromHost))), q, h, relayOnly);
      case HostDeliverWithFrost(t, id, query, p) =>
        ReplacePromises(s, None, t, Some(DispatchFrost(s, Submission(query, id, p, FromHost))), q, h, relayOnly);
      case Watch(query, eventId) => RecordPromises(s, Watching(query, eventId), q, h, relayOnly);
      case Select(id, p) => RecordPromises(s, Selected(id, p), q, h, relayOnly);
      case Stop => RecordPromises(s, Stopped, q, h, relayOnly);
    }
  }

  lemma RecordPromises(s: State, e: Event, q: string, h: string, relayOnly: bool)
    ensures Promised(Record(s, e), q, h, relayOnly) <==> Promised(s, q, h, relayOnly) || Told(e, q, h, relayOnly)
  {
    RecordFrame(s, e);
    ToldGrows(s.log, e, q, h, relayOnly);
  }

  /** The request is given the hash every earlier answer for q carries. */
  ghost predicate Fits(s: State, a: Action, sha: string -> string, q: string, relayOnly: bool) {
    Asks(s, a, sha, q, relayOnly) ==> forall h :: Promised(s, q, h, relayOnly) ==> h == Given(s, a)
  }

  lemma StepAgrees(s: State, a: Action, sha: string -> string, q: string, relayOnly: bool)
    ensures Agree(Step(s, a, sha), q, relayOnly) <==> Agree(s, q, relayOnly) && Fits(s, a, sha, q, relayOnly)
  {
    var s1 := Step(s, a, sha);
    forall h
      ensures Promised(s1, q, h, relayOnly) <==>
        Promised(s, q, h, relayOnly) || (Asks(s, a, sha, q, relayOnly) && Given(s, a) == h)
    {
      StepPromises(s, a, sha, q, h, relayOnly);
    }
    if Asks(s, a, sha, q, relayOnly) {
      assert Promised(s1, q, Given(s, a), relayOnly);
    }
  }

  // ---- What every run keeps about hashes ----

  ghost predicate IssuedArePromised(s: State) {
    forall q, h :: Issued(q, h) in s.log ==> Promised(s, q, h, false)
  }

  /** Only a settled delivery removes a recorded hash. */
  ghost predicate RecordedUntilForgotten(s: State) {
    forall q, h :: Issued(q, h) in s.log && Forgotten(q) !in s.log ==> q in s.hashOf
  }

  /** The suspended request drew a hash that is not issued yet. */
  ghost predicate DrawPending(log: seq<Event>, t: Task) {
    t.Issuing? ==> forall q :: Issued(q, t.hash) !in log
  }

  predicate DrawsDiffer(tasks: map<nat, Task>, t: nat, u: nat) {
    t in tasks && u in tasks && tasks[t].Issuing? && tasks[u].Issuing? && tasks[t].hash == tasks[u].hash ==> t == u
  }

  /** Each drawn hash is issued once, by the one request that drew it. */
  ghost predicate DrawsArePending(s: State) {
    && (forall t :: t in s.tasks ==> DrawPending(s.log, s.tasks[t]))
    && (forall t, u :: DrawsDiffer(s.tasks, t, u))
  }

  ghost predicate AnsweredExact(s: State) {
    && (forall q :: q in s.answered ==> Answered(q, s.answered[q]) in s.log)
    && (forall q, h :: Answered(q, h) in s.log ==> q in s.answered)
  }

  ghost predicate HashInv(s: State) {
    IssuedArePromised(s) && RecordedUntilForgotten(s) && DrawsArePending(s) && AnsweredExact(s)
  }

  lemma InitHashInv(retries: nat, frost: FrostSetup)
    ensures HashInv(Init(retries, frost))
  {
  }

  lemma IssuedStepsArePromised(s: State, a: Action, sha: string -> string)
    requires IssuedArePromised(s)
    ensures IssuedArePromised(Step(s, a, sha))
  {
    var s1, e := Step(s, a, sha), Logs(s, a, sha);
    StepRecords(s, a, sha);
    RecordIfFrame(s, e);
    forall q, h | Issued(q, h) in s1.log
      ensures Promised(s1, q, h, false)
    {
      StepPromises(s, a, sha, q, h, false);
      if Issued(q, h) !in s.log {
        assert e == Some(Issued(q, h));
        assert Carries(s.tasks[a.task], q, h, false);
      }
    }
  }

  lemma RecordedKept(s: State, e: Event)
    requires RecordedUntilForgotten(s)
    ensures RecordedUntilForgotten(Record(s, e))
  {
    RecordFrame(s, e);
    assert forall f :: f in s.log + [e] <==> f in s.log || f == e;
    var s1 := Record(s, e);
    assert s1.hashOf == if e.Issued? then s.hashOf[e.queryId := e.hash]
                        else if e.Forgotten? then s.hashOf - {e.queryId}
                        else s.hashOf;
  }

  lemma AnsweredKept(s: State, e: Event)
    requires AnsweredExact(s)
    ensures AnsweredExact(Record(s, e))
  {
    RecordFrame(s, e);
    assert forall f :: f in s.log + [e] <==> f in s.log || f == e;
    var s1 := Record(s, e);
    assert s1.answered == if e.Answered? then s.answered[e.queryId := e.hash] else s.answered;
  }

  /** A hash never drawn before is neither issued nor held by a suspended request. */
  lemma FreshHash(s: State, h: string)
    requires Inv(s) && forall e :: e in s.log && e.Created? ==> e.hash != h
    ensures forall q :: Issued(q, h) !in s.log
    ensures forall t :: t in s.tasks && s.tasks[t].Issuing? ==> s.tasks[t].hash != h
  {
    forall q
      ensures Issued(q, h) !in s.log
    {
      if Issued(q, h) in s.log {
        var i := IssuedWasDrawn(s.log, q, h);
      }
    }
    forall t | t in s.tasks && s.tasks[t].Issuing?
      ensures s.tasks[t].hash != h
    {
      assert TaskOk(s.log, s.tasks[t]);
    }
  }

  /** Steps that neither draw nor issue leave the pending draws alone. */
  lemma QuietKeepsDraws(s: State, s1: State)
    requires DrawsArePending(s)
    requires forall t :: t in s1.tasks && s1.tasks[t].Issuing? ==> t in s.tasks && s.tasks[t] == s1.tasks[t]
    requires forall t, q :: t in s1.tasks && s1.tasks[t].Issuing? && Issued(q, s1.tasks[t].hash) in s1.log ==>
      Issued(q, s1.tasks[t].hash) in s.log
    ensures DrawsArePending(s1)
  {
    forall t | t in s1.tasks
      ensures DrawPending(s1.log, s1.tasks[t])
    {
      if s1.tasks[t].Issuing? {
        assert DrawPending(s.log, s.tasks[t]);
      }
    }
    forall t, u
      ensures DrawsDiffer(s1.tasks, t, u)
    {
      assert DrawsDiffer(s.tasks, t, u);
    }
  }

  lemma ResumeKeepsDraws(s: State, id: nat, verdict: bool)
    requires DrawsArePending(s) && id in s.tasks
    ensures DrawsArePending(OnResume(s, id, verdict))
  {
    var s1, e := OnResume(s, id, verdict), Happens(s.tasks[id], verdict);
    RecordIfFrame(s, e);
    ResumeDrawsNothing(s, s.tasks[id], verdict);
    forall t, q | t in s1.tasks && s1.tasks[t].Issuing? && Issued(q, s1.tasks[t].hash) in s1.log
      ensures Issued(q, s1.tasks[t].hash) in s.log
    {
      assert t != id && s1.tasks[t] == s.tasks[t];
      assert DrawsDiffer(s.tasks, t, id);
    }
    QuietKeepsDraws(s, s1);
  }

  lemma DrawKeepsDraws(s: State, a: Action, sha: string -> string)
    requires Inv(s) && DrawsArePending(s) && a.RequestHash? && Enabled(s, a, sha)
    ensures var e := Created(a.queryId, a.hash, a.preimage);
      DrawsArePending(SetTask(Record(s, e), a.task, Some(Issuing(a.queryId, a.hash, a.viaRelay))))
  {
    var e := Created(a.queryId, a.hash, a.preimage);
    var s1 := SetTask(Record(s, e), a.task, Some(Issuing(a.queryId, a.hash, a.viaRelay)));
    FreshHash(s, a.hash);
    RecordFrame(s, e);
    forall t | t in s1.tasks
      ensures DrawPending(s1.log, s1.tasks[t])
    {
      if t != a.task {
        assert DrawPending(s.log, s.tasks[t]);
      }
    }
    forall t, u
      ensures DrawsDiffer(s1.tasks, t, u)
    {
      assert DrawsDiffer(s.tasks, t, u);
    }
  }

  lemma StepKeepsDraws(s: State, a: Action, sha: string -> string)
    requires Inv(s) && DrawsArePending(s)
    ensures DrawsArePending(Step(s, a, sha))
  {
    if Enabled(s, a, sha) {
      match a
      case Resume(t, verdict) => ResumeKeepsDraws(s, t, verdict);
      case RequestHash(_, q, _, _, relay) =>
        if !(relay && q in s.answered) && q !in s.hashOf {
          DrawKeepsDraws(s, a, sha);
        } else {
          KnownHashKeepsDraws(s, a);
        }
      case _ => OtherStepsKeepDraws(s, a, sha);
    }
  }

  lemma KnownHashKeepsDraws(s: State, a: Action)
    requires DrawsArePending(s) && a.RequestHash? && a.task !in s.tasks
    requires (a.viaRelay && a.queryId in s.answered) || a.queryId in s.hashOf
    ensures DrawsArePending(OnHashRequest(s, a))
  {
    if a.viaRelay && a.queryId in s.answered {
      RecordFrame(s, Answered(a.queryId, s.answered[a.queryId]));
    }
    QuietKeepsDraws(s, OnHashRequest(s, a));
  }

  lemma OtherStepsKeepDraws(s: State, a: Action, sha: string -> string)
    requires DrawsArePending(s) && Enabled(s, a, sha) && !a.Resume? && !a.RequestHash?
    ensures DrawsArePending(Step(s, a, sha))
  {
    StepRecords(s, a, sha);
    RecordIfFrame(s, Logs(s, a, sha));
    QuietKeepsDraws(s, Step(s, a, sha));
  }

  lemma StepKeepsHashInv(s: State, a: Action, sha: string -> string)
    requires Inv(s) && HashInv(s)
    ensures HashInv(Step(s, a, sha))
  {
    IssuedStepsArePromised(s, a, sha);
    StepKeepsDraws(s, a, sha);
    StepRecords(s, a, sha);
    var e := Logs(s, a, sha);
    if e.Some? {
      RecordedKept(s, e.value);
      AnsweredKept(s, e.value);
    }
  }

  lemma {:induction false} EveryRunKeepsHashInv(
    retries: nat, frost: FrostSetup, actions: seq<Action>, sha: string -> string)
    ensures HashInv(Exec(Init(retries, frost), actions, sha))
  {
    if actions == [] {
      InitHashInv(retries, frost);
    } else {
      var front := actions[..|actions| - 1];
      EveryRunKeepsHashInv(retries, frost, front, sha);
      EveryRunKeepsInv(retries, frost, front, sha);
      StepKeepsHashInv(Exec(Init(retries, frost), front, sha), actions[|actions| - 1], sha);
    }
  }

  // ---- When all answers agree ----

  /** A delivery for q settled on a hash that had been issued. */
  lemma ForgottenWasIssued(s: State, q: string) returns (h: string)
    requires LogOk(s.log) && Forgotten(q) in s.log
    ensures Issued(q, h) in s.log
  {
    var k :| 0 <= k < |s.log| && s.log[k] == Forgotten(q);
    assert JustifiedAt(s.log, k);
    var r: Release :| r.sub.queryId == q && Accepted(r) in s.log[..k];
    h := AcceptedWasIssued(s.log, r);
  }

  lemma AcceptedWasIssued(log: seq<Event>, r: Release) returns (h: string)
    requires LogOk(log) && Accepted(r) in log
    ensures Issued(r.sub.queryId, h) in log && h == r.hash
  {
    var k :| 0 <= k < |log| && log[k] == Accepted(r);
    assert JustifiedAt(log, k);
    var i :| 0 <= i < k && log[..k][i] == Sent(r);
    assert JustifiedAt(log, i);
    assert Issued(r.sub.queryId, r.hash) in log[..i];
    h := r.hash;
  }

  /** While the answers for q agree, its hash is not recorded again after settlement. */
  ghost predicate GoneAfterSettlement(s: State, q: string) {
    Agree(s, q, false) && Forgotten(q) in s.log ==> q !in s.hashOf
  }

  lemma StepKeepsGone(s: State, a: Action, sha: string -> string, q: string)
    requires Inv(s) && HashInv(s) && GoneAfterSettlement(s, q)
    ensures GoneAfterSettlement(Step(s, a, sha), q)
  {
    var e := Logs(s, a, sha);
    StepRecords(s, a, sha);
    StepAgrees(s, a, sha, q, false);
    if e.Some? {
      RecordOnlyIssues(s, e.value, q);
      if Agree(s, q, false) && Forgotten(q) in s.log && e.value.Issued? {
        NothingIssuedAfterSettlement(s, a.task, q);
      }
    }
  }

  lemma RecordOnlyIssues(s: State, e: Event, q: string)
    ensures Forgotten(q) in Record(s, e).log <==> Forgotten(q) in s.log || e == Forgotten(q)
    ensures q in Record(s, e).hashOf <==> (q in s.hashOf && e != Forgotten(q)) || (e.Issued? && e.queryId == q)
  {
  }

  lemma NothingIssuedAfterSettlement(s: State, id: nat, q: string)
    requires Inv(s) && HashInv(s) && Agree(s, q, false) && Forgotten(q) in s.log
    requires id in s.tasks && s.tasks[id].Issuing?
    ensures s.tasks[id].queryId != q
  {
    var h := ForgottenWasIssued(s, q);
    assert Promised(s, q, h, false);
    assert DrawPending(s.log, s.tasks[id]);
    if s.tasks[id].queryId == q {
      assert Carries(s.tasks[id], q, s.tasks[id].hash, false);
      assert Promised(s, q, s.tasks[id].hash, false);
    }
  }

  lemma {:induction false} EveryRunIsGone(
    retries: nat, frost: FrostSetup, actions: seq<Action>, sha: string -> string, q: string)
    ensures GoneAfterSettlement(Exec(Init(retries, frost), actions, sha), q)
  {
    if actions != [] {
      var front := actions[..|actions| - 1];
      EveryRunIsGone(retries, frost, front, sha, q);
      EveryRunKeepsInv(retries, frost, front, sha);
      EveryRunKeepsHashInv(retries, frost, front, sha);
      StepKeepsGone(Exec(Init(retries, frost), front, sha), actions[|actions| - 1], sha, q);
    }
  }

  predicate Drawing(s: State, q: string) {
    exists t :: t in s.tasks && s.tasks[t].Issuing? && s.tasks[t].queryId == q
  }

  /**
   A request for q starts cleanly when no draw for q is under way and, after q's delivery settled, only over
   the relay once the responder has answered it.
   */
  predicate Clean(s: State, a: Action, sha: string -> string, q: string) {
    Asks(s, a, sha, q, false) ==>
      !Drawing(s, q) && (Forgotten(q) in s.log ==> a.viaRelay && q in s.answered)
  }

  lemma CleanFits(s: State, a: Action, sha: string -> string, q: string)
    requires Inv(s) && HashInv(s) && Agree(s, q, false) && Clean(s, a, sha, q)
    ensures Fits(s, a, sha, q, false)
  {
    if Asks(s, a, sha, q, false) {
      forall h | Promised(s, q, h, false)
        ensures h == Given(s, a)
      {
        PromisedWasIssued(s, q, h);
        if a.viaRelay && q in s.answered {
          assert ToldIn(s.log, q, s.answered[q], false);
        } else {
          assert Issued(q, s.hashOf[q]) in s.log;
          assert Promised(s, q, s.hashOf[q], false);
        }
      }
    }
  }

  /** With no draw under way, every promised hash has been issued. */
  lemma PromisedWasIssued(s: State, q: string, h: string)
    requires Inv(s) && Promised(s, q, h, false) && !Drawing(s, q)
    ensures Issued(q, h) in s.log
  {
    if Answered(q, h) in s.log {
      var k :| 0 <= k < |s.log| && s.log[k] == Answered(q, h);
      assert JustifiedAt(s.log, k);
    } else if HostAnswered(q, h) in s.log {
      var k :| 0 <= k < |s.log| && s.log[k] == HostAnswered(q, h);
      assert JustifiedAt(s.log, k);
    } else {
      var t :| t in s.tasks && Carries(s.tasks[t], q, h, false);
      assert TaskOk(s.log, s.tasks[t]);
    }
  }

  lemma UncleanMisfits(s: State, a: Action, sha: string -> string, q: string)
    requires Inv(s) && HashInv(s) && Agree(s, q, false) && GoneAfterSettlement(s, q) && !Clean(s, a, sha, q)
    ensures !Fits(s, a, sha, q, false)
  {
    FreshHash(s, a.hash);
    if Drawing(s, q) {
      var t :| t in s.tasks && s.tasks[t].Issuing? && s.tasks[t].queryId == q;
      var h := s.tasks[t].hash;
      assert Carries(s.tasks[t], q, h, false) && Promised(s, q, h, false);
      assert DrawPending(s.log, s.tasks[t]);
      NotIssuedIsNotGiven(s, a, q, h);
    } else {
      var h := ForgottenWasIssued(s, q);
      assert Promised(s, q, h, false);
    }
  }

  /** A promised hash that is not issued yet is not what a new request for q is given. */
  lemma NotIssuedIsNotGiven(s: State, a: Action, q: string, h: string)
    requires Inv(s) && HashInv(s) && a.RequestHash? && a.queryId == q && Issued(q, h) !in s.log && h != a.hash
    ensures Given(s, a) != h
  {
    if a.viaRelay && q in s.answered {
      assert Issued(q, s.answered[q]) in s.log;
    } else if q in s.hashOf {
      assert Issued(q, s.hashOf[q]) in s.log;
    }
  }

  ghost predicate CleanRun(s: State, actions: seq<Action>, sha: string -> string, q: string) {
    actions == [] ||
    (&& CleanRun(s, actions[..|actions| - 1], sha, q)
     && Clean(Exec(s, actions[..|actions| - 1], sha), actions[|actions| - 1], sha, q))
  }

  /** Over every run: all answers for q, to relay and host, agree exactly when every request for q starts cleanly. */
  lemma {:induction false} AgreeIffClean(
    retries: nat, frost: FrostSetup, actions: seq<Action>, sha: string -> string, q: string)
    ensures Agree(Exec(Init(retries, frost), actions, sha), q, false) <==>
      CleanRun(Init(retries, frost), actions, sha, q)
  {
    if actions != [] {
      var front, a := actions[..|actions| - 1], actions[|actions| - 1];
      var s := Exec(Init(retries, frost), front, sha);
      AgreeIffClean(retries, frost, front, sha, q);
      StepAgrees(s, a, sha, q, false);
      EveryRunKeepsInv(retries, frost, front, sha);
      EveryRunKeepsHashInv(retries, frost, front, sha);
      EveryRunIsGone(retries, frost, front, sha, q);
      if Agree(s, q, false) {
        if Clean(s, a, sha, q) {
          CleanFits(s, a, sha, q);
        } else {
          UncleanMisfits(s, a, sha, q);
        }
      }
    }
  }

  // ---- Relay answers alone ----

  predicate RelayPending(t: Task, q: string) {
    ((t.Issuing? && t.viaRelay) || t.Answering?) && t.queryId == q
  }

  /** A relayed request for q finds it answered, or every relayed request under way carrying the recorded hash. */
  predicate RelayClean(s: State, a: Action, sha: string -> string, q: string) {
    Asks(s, a, sha, q, true) && q !in s.answered ==>
      forall t :: t in s.tasks && RelayPending(s.tasks[t], q) ==> q in s.hashOf && s.hashOf[q] == s.tasks[t].hash
  }

  lemma RelayFitsIff(s: State, a: Action, sha: string -> string, q: string)
    requires Inv(s) && HashInv(s) && Agree(s, q, true)
    ensures Fits(s, a, sha, q, true) <==> RelayClean(s, a, sha, q)
  {
    if Asks(s, a, sha, q, true) {
      if q in s.answered {
        assert ToldIn(s.log, q, s.answered[q], true);
        assert Promised(s, q, s.answered[q], true);
      } else {
        UnansweredFits(s, a, q);
      }
    }
  }

  lemma UnansweredFits(s: State, a: Action, q: string)
    requires Inv(s) && HashInv(s) && a.RequestHash? && a.queryId == q && q !in s.answered
    requires forall e :: e in s.log && e.Created? ==> e.hash != a.hash
    ensures (forall h :: Promised(s, q, h, true) ==> h == Given(s, a)) <==>
      (forall t :: t in s.tasks && RelayPending(s.tasks[t], q) ==> q in s.hashOf && s.hashOf[q] == s.tasks[t].hash)
  {
    FreshHash(s, a.hash);
    forall t | t in s.tasks && RelayPending(s.tasks[t], q)
      ensures Promised(s, q, s.tasks[t].hash, true) && s.tasks[t].hash != a.hash
    {
      assert Carries(s.tasks[t], q, s.tasks[t].hash, true);
      assert TaskOk(s.log, s.tasks[t]);
    }
    forall h | Promised(s, q, h, true)
      ensures exists t :: t in s.tasks && RelayPending(s.tasks[t], q) && s.tasks[t].hash == h
    {
      var t :| t in s.tasks && Carries(s.tasks[t], q, h, true);
      assert RelayPending(s.tasks[t], q);
    }
  }

  ghost predicate RelayCleanRun(s: State, actions: seq<Action>, sha: string -> string, q: string) {
    actions == [] ||
    (&& RelayCleanRun(s, actions[..|actions| - 1], sha, q)
     && RelayClean(Exec(s, actions[..|actions| - 1], sha), actions[|actions| - 1], sha, q))
  }

  /** Over every run: the answers for q over the relay agree exactly when every relayed request for q starts so. */
  lemma {:induction false} RelayAgreeIffClean(
    retries: nat, frost: FrostSetup, actions: seq<Action>, sha: string -> string, q: string)
    ensures Agree(Exec(Init(retries, frost), actions, sha), q, true) <==>
      RelayCleanRun(Init(retries, frost), actions, sha, q)
  {
    if actions != [] {
      var front, a := actions[..|actions| - 1], actions[|actions| - 1];
      var s := Exec(Init(retries, frost), front, sha);
      RelayAgreeIffClean(retries, frost, front, sha, q);
      StepAgrees(s, a, sha, q, true);
      EveryRunKeepsInv(retries, frost, front, sha);
      EveryRunKeepsHashInv(retries, frost, front, sha);
      if Agree(s, q, true) {
        RelayFitsIff(s, a, sha, q);
      }
    }
  }

  // ---- From promises to answers ----

  predicate OnlyResumes(more: seq<Action>) {
    forall i :: 0 <= i < |more| ==> more[i].Resume?
  }

  ghost predicate SameAnswers(log: seq<Event>, q: string, relayOnly: bool) {
    forall h, h' :: ToldIn(log, q, h, relayOnly) && ToldIn(log, q, h', relayOnly) ==> h == h'
  }

  lemma {:induction false} ResumesKeepAgreement(
    s: State, more: seq<Action>, sha: string -> string, q: string, relayOnly: bool)
    requires Agree(s, q, relayOnly) && OnlyResumes(more)
    ensures Agree(Exec(s, more, sha), q, relayOnly)
  {
    if more != [] {
      var front := more[..|more| - 1];
      ResumesKeepAgreement(s, front, sha, q, relayOnly);
      StepAgrees(Exec(s, front, sha), more[|more| - 1], sha, q, relayOnly);
    }
  }

  lemma {:induction false} PromisesStand(
    s: State, more: seq<Action>, sha: string -> string, q: string, h: string, relayOnly: bool)
    requires Promised(s, q, h, relayOnly)
    ensures Promised(Exec(s, more, sha), q, h, relayOnly)
  {
    if more != [] {
      var front := more[..|more| - 1];
      PromisesStand(s, front, sha, q, h, relayOnly);
      StepPromises(Exec(s, front, sha), more[|more| - 1], sha, q, h, relayOnly);
    }
  }

  lemma {:induction false} LogStands(s: State, more: seq<Action>, sha: string -> string)
    ensures s.log <= Exec(s, more, sha).log
  {
    if more != [] {
      var front := more[..|more| - 1];
      LogStands(s, front, sha);
      var e := StepLog(Exec(s, front, sha), more[|more| - 1], sha);
    }
  }

  lemma {:induction false} ExecConcat(s: State, some: seq<Action>, more: seq<Action>, sha: string -> string)
    ensures Exec(s, some + more, sha) == Exec(Exec(s, some, sha), more, sha)
  {
    if more == [] {
      assert some + more == some;
    } else {
      var front := more[..|more| - 1];
      ExecConcat(s, some, front, sha);
      assert (some + more)[..|some + more| - 1] == some + front;
    }
  }

  /** A suspended request answers after at most two resumptions. */
  lemma PromiseIsKept(
    s: State, sha: string -> string, q: string, h: string, relayOnly: bool) returns (more: seq<Action>)
    requires Promised(s, q, h, relayOnly)
    ensures OnlyResumes(more) && ToldIn(Exec(s, more, sha).log, q, h, relayOnly)
  {
    if ToldIn(s.log, q, h, relayOnly) {
      more := [];
    } else {
      var t :| t in s.tasks && Carries(s.tasks[t], q, h, relayOnly);
      if s.tasks[t].Issuing? {
        more := [Resume(t, true), Resume(t, true)];
        var s1 := Step(s, Resume(t, true), sha);
        RecordFrame(s, Issued(q, h));
        assert s1.tasks[t] == Returning(q, h, s.tasks[t].viaRelay);
        ReturningAnswers(s1, t, sha, q, h, relayOnly);
        ExecTwo(s, more[0], more[1], sha);
      } else {
        more := [Resume(t, true)];
        ReturningAnswers(s, t, sha, q, h, relayOnly);
        ExecOne(s, more[0], sha);
      }
    }
  }

  lemma ReturningAnswers(s: State, t: nat, sha: string -> string, q: string, h: string, relayOnly: bool)
    requires t in s.tasks && Carries(s.tasks[t], q, h, relayOnly) && !s.tasks[t].Issuing?
    ensures ToldIn(Step(s, Resume(t, true), sha).log, q, h, relayOnly)
  {
    var e := if s.tasks[t].Answering? then Answered(q, h) else HostAnswered(q, h);
    RecordFrame(s, e);
    ToldGrows(s.log, e, q, h, relayOnly);
  }

  lemma ExecOne(s: State, a: Action, sha: string -> string)
    ensures Exec(s, [a], sha) == Step(s, a, sha)
  {
    assert [a][..0] == [];
  }

  lemma ExecTwo(s: State, a: Action, b: Action, sha: string -> string)
    ensures Exec(s, [a, b], sha) == Step(Step(s, a, sha), b, sha)
  {
    ExecOne(s, a, sha);
    assert [a, b][..1] == [a];
  }

  /** Two promised hashes are both answered once their requests return. */
  lemma BothAnswer(
    s: State, sha: string -> string, q: string, h: string, h': string, relayOnly: bool) returns (more: seq<Action>)
    requires Promised(s, q, h, relayOnly) && Promised(s, q, h', relayOnly)
    ensures OnlyResumes(more)
    ensures ToldIn(Exec(s, more, sha).log, q, h, relayOnly) && ToldIn(Exec(s, more, sha).log, q, h', relayOnly)
  {
    var first := PromiseIsKept(s, sha, q, h, relayOnly);
    PromisesStand(s, first, sha, q, h', relayOnly);
    var second := PromiseIsKept(Exec(s, first, sha), sha, q, h', relayOnly);
    ExecConcat(s, first, second, sha);
    LogStands(Exec(s, first, sha), second, sha);
    more := first + second;
  }

  /** Promises agree exactly when, however the suspended requests return, all answers are one hash. */
  lemma AgreeIffSameAnswers(s: State, sha: string -> string, q: string, relayOnly: bool)
    ensures Agree(s, q, relayOnly) <==>
      forall more :: OnlyResumes(more) ==> SameAnswers(Exec(s, more, sha).log, q, relayOnly)
  {
    if Agree(s, q, relayOnly) {
      forall more | OnlyResumes(more)
        ensures SameAnswers(Exec(s, more, sha).log, q, relayOnly)
      {
        ResumesKeepAgreement(s, more, sha, q, relayOnly);
        AgreedAnswers(Exec(s, more, sha), q, relayOnly);
      }
    } else {
      var h, h' :| Promised(s, q, h, relayOnly) && Promised(s, q, h', relayOnly) && h != h';
      var more := BothAnswer(s, sha, q, h, h', relayOnly);
      assert !SameAnswers(Exec(s, more, sha).log, q, relayOnly);
    }
  }

  lemma AgreedAnswers(s: State, q: string, relayOnly: bool)
    requires Agree(s, q, relayOnly)
    ensures SameAnswers(s.log, q, relayOnly)
  {
    forall h, h' | ToldIn(s.log, q, h, relayOnly) && ToldIn(s.log, q, h', relayOnly)
      ensures h == h'
    {
      assert Promised(s, q, h, relayOnly) && Promised(s, q, h', relayOnly);
    }
  }

  /**
   Over every run: relay and host are told one hash for q, whatever requests are still to return, exactly
   when every request for q starts cleanly.
   */
  lemma OneHashPerQueryIff(retries: nat, frost: FrostSetup, actions: seq<Action>, sha: string -> string, q: string)
    ensures CleanRun(Init(retries, frost), actions, sha, q) <==>
      forall more :: OnlyResumes(more) ==>
        SameAnswers(Exec(Exec(Init(retries, frost), actions, sha), more, sha).log, q, false)
  {
    AgreeIffClean(retries, frost, actions, sha, q);
    AgreeIffSameAnswers(Exec(Init(retries, frost), actions, sha), sha, q, false);
  }

  /** The same for the answers over the relay, whatever the host asks for. */
  lemma OneRelayHashIff(retries: nat, frost: FrostSetup, actions: seq<Action>, sha: string -> string, q: string)
    ensures RelayCleanRun(Init(retries, frost), actions, sha, q) <==>
      forall more :: OnlyResumes(more) ==>
        SameAnswers(Exec(Exec(Init(retries, frost), actions, sha), more, sha).log, q, true)
  {
    RelayAgreeIffClean(retries, frost, actions, sha, q);
    AgreeIffSameAnswers(Exec(Init(retries, frost), actions, sha), sha, q, true);
  }

  // ---- Two ways to two hashes ----

  /** From any state in which q has no hash yet, two overlapping relayed requests are answered with different hashes. */
  lemma OverlapSplitsTheHash(s: State, a: Action, b: Action, sha: string -> string) returns (more: seq<Action>)
    requires a.RequestHash? && b.RequestHash? && a.viaRelay && b.viaRelay
    requires a.queryId == b.queryId && a.queryId !in s.answered && a.queryId !in s.hashOf
    requires Enabled(s, a, sha) && Enabled(Step(s, a, sha), b, sha)
    ensures var log := Exec(Step(Step(s, a, sha), b, sha), more, sha).log;
      OnlyResumes(more) && a.hash != b.hash && Answered(a.queryId, a.hash) in log && Answered(b.queryId, b.hash) in log
  {
    var q, s1 := a.queryId, Step(s, a, sha);
    assert s1.log[|s.log|] == Created(q, a.hash, a.preimage) && s1.log[|s.log|] in s1.log;
    StepPromises(s, a, sha, q, a.hash, true);
    StepPromises(s1, b, sha, q, a.hash, true);
    StepPromises(s1, b, sha, q, b.hash, true);
    more := BothAnswer(Step(s1, b, sha), sha, q, a.hash, b.hash, true);
  }

  /** Once q's delivery settled, a host request draws a new hash, different from every hash answered before. */
  lemma SettledHostRequestDiffers(
    s: State, a: Action, sha: string -> string, q: string, h: string) returns (more: seq<Action>)
    requires Inv(s) && a.RequestHash? && !a.viaRelay && a.queryId == q && Enabled(s, a, sha)
    requires Forgotten(q) in s.log && q !in s.hashOf && ToldIn(s.log, q, h, false)
    ensures OnlyResumes(more) && a.hash != h
    ensures HostAnswered(q, a.hash) in Exec(Step(s, a, sha), more, sha).log
  {
    FreshHash(s, a.hash);
    if Answered(q, h) in s.log {
      var i := AnsweredWasDrawn(s.log, q, h);
    } else {
      var k :| 0 <= k < |s.log| && s.log[k] == HostAnswered(q, h);
      assert JustifiedAt(s.log, k);
    }
    var s1 := Step(s, a, sha);
    more := [Resume(a.task, true), Resume(a.task, true)];
    ExecTwo(s1, more[0], more[1], sha);
    RecordFrame(s1, Issued(q, a.hash));
    var s2 := Step(s1, more[0], sha);
    assert s2.tasks[a.task] == HostReturning(q, a.hash);
    RecordFrame(s2, HostAnswered(q, a.hash));
  }
}
