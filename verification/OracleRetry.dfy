/**
 A failed delivery can be retried: until a relay accepts a release for the query, the daemon still holds the
 preimage, the query's hash and the watch, and the next passing result sends the same release again.
 */
module OracleRetry {
  import opened Wrappers
  import opened OracleDaemon
  import opened OracleRetention
  import opened OracleHashes

  // ---- The commitment is kept ----

  function LastIssued(log: seq<Event>, q: string): Option<string> {
    if log == [] then None
    else
      var e := log[|log| - 1];
      if e.Issued? && e.queryId == q then Some(e.hash) else LastIssued(log[..|log| - 1], q)
  }

  /** Until it is forgotten, a query's recorded hash is the one issued last. */
  ghost predicate HashIsLastIssued(s: State, q: string) {
    Forgotten(q) !in s.log ==>
      && (q in s.hashOf <==> LastIssued(s.log, q).Some?)
      && (q in s.hashOf ==> LastIssued(s.log, q) == Some(s.hashOf[q]))
  }

  lemma RecordKeepsLastIssued(s: State, e: Event, q: string)
    requires HashIsLastIssued(s, q)
    ensures HashIsLastIssued(Record(s, e), q)
  {
    RecordFrame(s, e);
    RecordOnlyIssues(s, e, q);
    assert (s.log + [e])[..|s.log|] == s.log;
  }

  lemma {:induction false} EveryRunIsLastIssued(
    retries: nat, frost: FrostSetup, actions: seq<Action>, sha: string -> string, q: string)
    ensures HashIsLastIssued(Exec(Init(retries, frost), actions, sha), q)
  {
    if actions != [] {
      var front, a := actions[..|actions| - 1], actions[|actions| - 1];
      var s := Exec(Init(retries, frost), front, sha);
      EveryRunIsLastIssued(retries, frost, front, sha, q);
      StepRecords(s, a, sha);
      if Logs(s, a, sha).Some? {
        RecordKeepsLastIssued(s, Logs(s, a, sha).value, q);
      }
    }
  }

  lemma ForgottenIsSettled(log: seq<Event>, q: string)
    requires LogOk(log) && Forgotten(q) in log
    ensures Settled(log, q)
  {
    var k :| 0 <= k < |log| && log[k] == Forgotten(q);
    assert JustifiedAt(log, k);
    var r: Release :| r.sub.queryId == q && Accepted(r) in log[..k];
    assert Accepted(r) in log;
  }

  /** A preimage drawn for q is deleted only after a release for q was accepted. */
  lemma DeletedIsSettled(s: State, q: string, h: string, x: string)
    requires Inv(s) && Created(q, h, x) in s.log && DeletedIn(s.log, h)
    ensures Settled(s.log, q)
  {
    var r: Release :| r.hash == h && Deleted(r) in s.log;
    var k :| 0 <= k < |s.log| && s.log[k] == Deleted(r);
    assert JustifiedAt(s.log, k);
    assert Accepted(r) in s.log;
    var issued := AcceptedWasIssued(s.log, r);
    var i := IssuedWasDrawn(s.log, r.sub.queryId, h);
    var j :| 0 <= j < |s.log| && s.log[j] == Created(q, h, x);
    assert SameCreation(s.log, i, j);
  }

  /**
   Over every run: a release sent for q, with none accepted for q so far, is still what the daemon would
   fetch exactly when its hash is the one issued last for q.
   */
  lemma ReleaseIsKeptIff(
    retries: nat, frost: FrostSetup, actions: seq<Action>, sha: string -> string, r: Release)
    requires var s := Exec(Init(retries, frost), actions, sha); Sent(r) in s.log && !Settled(s.log, r.sub.queryId)
    ensures var s := Exec(Init(retries, frost), actions, sha);
      Commitment(s, r.sub) == Some(r) <==> LastIssued(s.log, r.sub.queryId) == Some(r.hash)
  {
    var s, q := Exec(Init(retries, frost), actions, sha), r.sub.queryId;
    EveryRunKeepsInv(retries, frost, actions, sha);
    EveryRunStoreExact(retries, frost, actions, sha);
    EveryRunIsLastIssued(retries, frost, actions, sha, q);
    SentWasCreated(s.log, r);
    if Forgotten(q) in s.log {
      ForgottenIsSettled(s.log, q);
    }
    if DeletedIn(s.log, r.hash) {
      DeletedIsSettled(s, q, r.hash, r.preimage);
    }
    assert r.hash in s.entries;
    if LastIssued(s.log, q) == Some(r.hash) {
      CommitmentBelongs(s, q);
      SamePreimage(s, q, r.hash, r.preimage, s.entries[r.hash]);
    }
  }

  lemma SentWasCreated(log: seq<Event>, r: Release)
    requires LogOk(log) && Sent(r) in log
    ensures Created(r.sub.queryId, r.hash, r.preimage) in log && Issued(r.sub.queryId, r.hash) in log
  {
    var k :| 0 <= k < |log| && log[k] == Sent(r);
    assert JustifiedAt(log, k);
  }

  lemma {:induction false} LastIssuedWasIssued(log: seq<Event>, q: string, h: string)
    requires Issued(q, h) in log
    ensures LastIssued(log, q).Some? && Issued(q, LastIssued(log, q).value) in log
  {
    var e, front := log[|log| - 1], log[..|log| - 1];
    assert log == front + [e];
    if !(e.Issued? && e.queryId == q) {
      LastIssuedWasIssued(front, q, h);
    }
  }

  /** When every request for q starts cleanly, a release that no relay accepted is always kept. */
  lemma ReleaseIsKept(retries: nat, frost: FrostSetup, actions: seq<Action>, sha: string -> string, r: Release)
    requires CleanRun(Init(retries, frost), actions, sha, r.sub.queryId)
    requires var s := Exec(Init(retries, frost), actions, sha); Sent(r) in s.log && !Settled(s.log, r.sub.queryId)
    ensures Commitment(Exec(Init(retries, frost), actions, sha), r.sub) == Some(r)
  {
    var s, q := Exec(Init(retries, frost), actions, sha), r.sub.queryId;
    AgreeIffClean(retries, frost, actions, sha, q);
    EveryRunKeepsInv(retries, frost, actions, sha);
    EveryRunKeepsHashInv(retries, frost, actions, sha);
    SentWasCreated(s.log, r);
    LastIssuedWasIssued(s.log, q, r.hash);
    var last := LastIssued(s.log, q).value;
    assert Promised(s, q, last, false) && Promised(s, q, r.hash, false);
    ReleaseIsKeptIff(retries, frost, actions, sha, r);
  }

  // ---- The watch is kept ----

  /** The step neither re-watches nor re-selects q, and does not stop the daemon. */
  predicate LeavesWatch(a: Action, q: string) {
    match a
    case Watch(query, _) => query.id != q
    case Select(id, _) => id != q
    case Stop => false
    case _ => true
  }

  predicate AllLeaveWatch(more: seq<Action>, q: string) {
    forall i :: 0 <= i < |more| ==> LeavesWatch(more[i], q)
  }

  lemma EndedStands(s: State, a: Action, sha: string -> string, q: string)
    requires Ended(s.log, q)
    ensures Ended(Step(s, a, sha).log, q)
  {
    var e := StepLog(s, a, sha);
    if e.Some? {
      EndedGrows(s.log, e.value, q);
    }
  }

  lemma StepKeepsWatch(s: State, a: Action, sha: string -> string, q: string)
    requires Inv(s) && q in s.watched && LeavesWatch(a, q) && !Ended(s.log, q)
    ensures var s1 := Step(s, a, sha); q in s1.watched && s1.watched[q] == s.watched[q]
  {
    StepRecords(s, a, sha);
    var e := Logs(s, a, sha);
    if e.Some? {
      assert !TouchesWatch(e.value, q) by {
        if a.Resume? {
          HappensIsJustified(s, a.task, a.verdict);
          if TouchesWatch(e.value, q) {
            ResumeTouches(s.tasks[a.task], a.verdict, q);
          }
        }
      }
      RecordKeepsWatch(s, e.value, q);
    }
  }

  predicate TouchesWatch(e: Event, q: string) {
    match e
    case Watching(query, _) => query.id == q
    case Selected(id, _) => id == q
    case Unwatched(id) => id == q
    case Stopped => true
    case _ => false
  }

  lemma RecordKeepsWatch(s: State, e: Event, q: string)
    requires q in s.watched && !TouchesWatch(e, q)
    ensures q in Record(s, e).watched && Record(s, e).watched[q] == s.watched[q]
  {
  }

  /** A resumed call touches a watch only by closing it. */
  lemma ResumeTouches(t: Task, verdict: bool, q: string)
    requires Happens(t, verdict).Some? && TouchesWatch(Happens(t, verdict).value, q)
    ensures Happens(t, verdict) == Some(Unwatched(q))
  {
  }

  /** Until a call for q ends, the watch stays as the host left it. */
  lemma {:induction false} WatchStands(s: State, more: seq<Action>, sha: string -> string, q: string)
    requires Inv(s) && q in s.watched && AllLeaveWatch(more, q) && !Ended(Exec(s, more, sha).log, q)
    ensures var s1 := Exec(s, more, sha); Inv(s1) && q in s1.watched && s1.watched[q] == s.watched[q]
  {
    if more != [] {
      var front := more[..|more| - 1];
      var s1 := Exec(s, front, sha);
      if Ended(s1.log, q) {
        EndedStands(s1, more[|more| - 1], sha, q);
      }
      WatchStands(s, front, sha, q);
      StepKeepsWatch(s1, more[|more| - 1], sha, q);
      StepKeepsInv(s1, more[|more| - 1], sha);
    }
  }

  // ---- The retry ----

  /** The steps of a retry: the last attempt fails, the result comes again, verification passes, and it is sent. */
  function Retry(s: State, id: nat, result: Action, sha: string -> string): State
    requires result.ResultEvent? || result.HostDeliver?
  {
    var s1 := Step(Step(s, Resume(id, false), sha), result, sha);
    Step(Step(s1, Resume(result.task, true), sha), Resume(result.task, true), sha)
  }

  lemma FailedDeliveryKeepsAll(s: State, id: nat, sha: string -> string)
    requires id in s.tasks && s.tasks[id].Publishing? && s.tasks[id].retriesLeft == 0
    ensures var s1 := Step(s, Resume(id, false), sha);
      s1 == s.(tasks := s.tasks - {id}, log := s.log + [Undelivered(s.tasks[id].release)])
  {
  }

  lemma DispatchedRetrySends(s: State, task: nat, r: Release, sha: string -> string)
    requires task in s.tasks && s.tasks[task] == Verifying(r.sub) && Commitment(s, r.sub) == Some(r)
    ensures var s1 := Step(Step(s, Resume(task, true), sha), Resume(task, true), sha);
      && s1 == s.(tasks := s.tasks[task := Publishing(r, s.retries)], log := s.log + [Passed(r.sub)] + [Sent(r)])
  {
    var s1 := Step(s, Resume(task, true), sha);
    assert s1.tasks[task] == Fetched(r);
  }

  /**
   A result taken from the watch was sent and no relay accepted it. As long as no call for the query has
   ended, the same result event from the recorded Provider passes through the kept watch and, once verified,
   sends the very same release.
   */
  lemma RelayRetrySendsTheSameRelease(
    retries: nat, frost: FrostSetup, actions: seq<Action>, more: seq<Action>, sha: string -> string, q: string,
    id: nat, again: nat)
    requires CleanRun(Init(retries, frost), actions + more, sha, q)
    requires AllLeaveWatch(more, q)
    requires var s0 := Exec(Init(retries, frost), actions, sha);
      var s := Exec(s0, more, sha);
      && q in s0.watched && s0.watched[q].selected.Some?
      && id in s.tasks && s.tasks[id].Publishing? && s.tasks[id].retriesLeft == 0
      && s.tasks[id].release.sub ==
         Submission(s0.watched[q].query, q, s0.watched[q].selected.value, FromRelay(s0.watched[q].eventId))
      && !Ended(s.log, q) && again !in s.tasks
    ensures var s0 := Exec(Init(retries, frost), actions, sha);
      var s := Exec(s0, more, sha);
      var r := s.tasks[id].release;
      var result := ResultEvent(again, q, r.sub.provider, Some(Payload(q, s0.watched[q].eventId)));
      var s1 := Retry(s, id, result, sha);
      && s1.log == s.log + [Undelivered(r), Taken(r.sub, result.payload.value), Passed(r.sub), Sent(r)]
      && s1.watched == s.watched && s1.hashOf == s.hashOf && s1.entries == s.entries
  {
    var s0 := Exec(Init(retries, frost), actions, sha);
    var s := Exec(s0, more, sha);
    var r := s.tasks[id].release;
    ExecConcat(Init(retries, frost), actions, more, sha);
    EveryRunKeepsInv(retries, frost, actions, sha);
    WatchStands(s0, more, sha, q);
    assert WatchOf(s.watched, q) == WatchIn(s.log, q);
    WatchIsForQuery(s.log, q);
    assert TaskOk(s.log, s.tasks[id]);
    assert !Settled(s.log, q);
    ReleaseIsKept(retries, frost, actions + more, sha, r);
    FailedDeliveryKeepsAll(s, id, sha);
    var result := ResultEvent(again, q, r.sub.provider, Some(Payload(q, s0.watched[q].eventId)));
    var s1 := Step(Step(s, Resume(id, false), sha), result, sha);
    assert s1.tasks[again] == Verifying(r.sub);
    DispatchedRetrySends(s1, again, r, sha);
  }

  /** The host's own call can be repeated in the same way until a relay accepts a release for the query. */
  lemma HostRetrySendsTheSameRelease(
    retries: nat, frost: FrostSetup, actions: seq<Action>, sha: string -> string, q: string, id: nat, again: nat)
    requires CleanRun(Init(retries, frost), actions, sha, q)
    requires var s := Exec(Init(retries, frost), actions, sha);
      && id in s.tasks && s.tasks[id].Publishing? && s.tasks[id].retriesLeft == 0
      && s.tasks[id].release.sub.origin == FromHost && s.tasks[id].release.sub.queryId == q
      && !Settled(s.log, q) && again !in s.tasks
    ensures var s := Exec(Init(retries, frost), actions, sha);
      var r := s.tasks[id].release;
      var s1 := Retry(s, id, HostDeliver(again, q, r.sub.query, r.sub.provider), sha);
      && s1.log == s.log + [Undelivered(r), Passed(r.sub), Sent(r)]
      && s1.watched == s.watched && s1.hashOf == s.hashOf && s1.entries == s.entries
  {
    var s := Exec(Init(retries, frost), actions, sha);
    var r := s.tasks[id].release;
    EveryRunKeepsInv(retries, frost, actions, sha);
    assert TaskOk(s.log, s.tasks[id]);
    ReleaseIsKept(retries, frost, actions, sha, r);
    FailedDeliveryKeepsAll(s, id, sha);
    var s1 := Step(Step(s, Resume(id, false), sha), HostDeliver(again, q, r.sub.query, r.sub.provider), sha);
    assert s1.tasks[again] == Verifying(r.sub);
    DispatchedRetrySends(s1, again, r, sha);
  }
}
