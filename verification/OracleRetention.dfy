/** What the Oracle daemon keeps between deliveries. */
module OracleRetention {
  import opened Wrappers
  import opened OracleDaemon

  // ---- Preimages are kept until a relay accepts them ----

  /** Whether some delivery of this hash was accepted and its preimage deleted. */
  ghost predicate DeletedIn(log: seq<Event>, hash: string) {
    exists r: Release :: r.hash == hash && Deleted(r) in log
  }

  ghost predicate DrawnIn(log: seq<Event>, hash: string) {
    exists q, x :: Created(q, hash, x) in log
  }

  /** The store holds exactly the preimages drawn and not yet deleted. */
  ghost predicate StoreExact(s: State) {
    forall h :: h in s.entries <==> DrawnIn(s.log, h) && !DeletedIn(s.log, h)
  }

  /** A deleted preimage had been drawn before. */
  lemma DeletedWasDrawn(log: seq<Event>, hash: string)
    requires LogOk(log) && DeletedIn(log, hash)
    ensures DrawnIn(log, hash)
  {
    var r: Release :| r.hash == hash && Deleted(r) in log;
    var k :| 0 <= k < |log| && log[k] == Deleted(r);
    assert JustifiedAt(log, k);
    var a :| 0 <= a < k && log[..k][a] == Accepted(r);
    assert JustifiedAt(log, a);
    var b :| 0 <= b < a && log[..a][b] == Sent(r);
    assert JustifiedAt(log, b);
    var i :| 0 <= i < b && log[..b][i] == Created(r.sub.queryId, r.hash, r.preimage);
    assert log[i] == Created(r.sub.queryId, r.hash, r.preimage);
  }

  lemma DrawnGrows(log: seq<Event>, e: Event, hash: string)
    ensures DrawnIn(log + [e], hash) <==> DrawnIn(log, hash) || (e.Created? && e.hash == hash)
    ensures DeletedIn(log + [e], hash) <==> DeletedIn(log, hash) || (e.Deleted? && e.release.hash == hash)
  {
    var more := log + [e];
    assert forall f :: f in more <==> f in log || f == e;
    if DrawnIn(log, hash) {
      var q, x :| Created(q, hash, x) in log;
      assert Created(q, hash, x) in more;
    }
    if e.Created? && e.hash == hash {
      assert Created(e.queryId, hash, e.preimage) in more;
    }
    if DeletedIn(log, hash) {
      var r: Release :| r.hash == hash && Deleted(r) in log;
      assert Deleted(r) in more;
    }
    if e.Deleted? && e.release.hash == hash {
      assert Deleted(e.release) in more;
    }
  }

  lemma RecordKeepsStoreExact(s: State, e: Event)
    requires StoreExact(s) && LogOk(s.log)
    requires e.Created? ==> forall f :: f in s.log && f.Created? ==> f.hash != e.hash
    ensures StoreExact(Record(s, e))
  {
    var s1 := Record(s, e);
    forall h
      ensures h in s1.entries <==> DrawnIn(s1.log, h) && !DeletedIn(s1.log, h)
    {
      DrawnGrows(s.log, e, h);
      if e.Created? && e.hash == h {
        assert !DrawnIn(s.log, h);
        assert !DeletedIn(s.log, h) by {
          if DeletedIn(s.log, h) {
            DeletedWasDrawn(s.log, h);
          }
        }
      }
    }
  }

  lemma StepKeepsStoreExact(s: State, a: Action, sha: string -> string)
    requires Inv(s) && StoreExact(s)
    ensures StoreExact(Step(s, a, sha))
  {
    if Enabled(s, a, sha) {
      match a
      case Watch(query, eventId) => RecordKeepsStoreExact(s, Watching(query, eventId));
      case Select(q, p) => RecordKeepsStoreExact(s, Selected(q, p));
      case RequestHash(_, q, h, x, relay) =>
        if relay && q in s.answered {
          RecordKeepsStoreExact(s, Answered(q, s.answered[q]));
        } else if q !in s.hashOf {
          RecordKeepsStoreExact(s, Created(q, h, x));
        }
      case ResultEvent(_, _, _, _) =>
        if Accepts(s, a).Some? {
          RecordKeepsStoreExact(s, Taken(Accepts(s, a).value, a.payload.value));
        }
      case HostDeliver(_, _, _, _) =>
      case HostDeliverWithFrost(_, _, _, _) =>
      case Resume(t, verdict) =>
        HappensIsJustified(s, t, verdict);
        if Happens(s.tasks[t], verdict).Some? {
          RecordKeepsStoreExact(s, Happens(s.tasks[t], verdict).value);
        }
      case Stop => RecordKeepsStoreExact(s, Stopped);
    }
  }

  lemma {:induction false} EveryRunStoreExact(
    retries: nat, frost: FrostSetup, actions: seq<Action>, sha: string -> string)
    ensures StoreExact(Exec(Init(retries, frost), actions, sha))
  {
    if actions != [] {
      var front := actions[..|actions| - 1];
      EveryRunStoreExact(retries, frost, front, sha);
      EveryRunKeepsInv(retries, frost, front, sha);
      StepKeepsStoreExact(Exec(Init(retries, frost), front, sha), actions[|actions| - 1], sha);
    }
  }

  /** Over every run, the daemon still holds a drawn preimage exactly until some relay accepted a delivery of it. */
  lemma KeptUntilAccepted(retries: nat, frost: FrostSetup, actions: seq<Action>, sha: string -> string, hash: string)
    ensures var s := Exec(Init(retries, frost), actions, sha);
      && (hash in s.entries <==> DrawnIn(s.log, hash) && !DeletedIn(s.log, hash))
      && (DeletedIn(s.log, hash) ==> exists r: Release :: r.hash == hash && Sent(r) in s.log && Accepted(r) in s.log)
  {
    EveryRunStoreExact(retries, frost, actions, sha);
    EveryRunKeepsInv(retries, frost, actions, sha);
    var log := Exec(Init(retries, frost), actions, sha).log;
    if DeletedIn(log, hash) {
      var r: Release :| r.hash == hash && Deleted(r) in log;
      var k :| 0 <= k < |log| && log[k] == Deleted(r);
      ReleaseSafety(retries, frost, actions, sha, k);
      assert Accepted(r) in log && Sent(r) in log;
    }
  }

  lemma SamePreimage(s: State, q: string, h: string, x: string, y: string)
    requires Inv(s) && Created(q, h, x) in s.log && Created(q, h, y) in s.log
    ensures x == y
  {
    var i :| 0 <= i < |s.log| && s.log[i] == Created(q, h, x);
    var j :| 0 <= j < |s.log| && s.log[j] == Created(q, h, y);
    assert SameCreation(s.log, i, j);
  }

  // ---- What a step logs ----

  predicate DrawnForAt(log: seq<Event>, q: string, k: nat) {
    k < |log| && log[k].Created? && log[k].queryId == q
  }

  lemma IssuedWasDrawn(log: seq<Event>, q: string, h: string) returns (i: nat)
    requires LogOk(log) && Issued(q, h) in log
    ensures DrawnForAt(log, q, i) && log[i].hash == h
  {
    var k :| 0 <= k < |log| && log[k] == Issued(q, h);
    assert JustifiedAt(log, k);
    var x :| Created(q, h, x) in log[..k];
    i :| 0 <= i < k && log[..k][i] == Created(q, h, x);
  }

  lemma AnsweredWasDrawn(log: seq<Event>, q: string, h: string) returns (i: nat)
    requires LogOk(log) && Answered(q, h) in log
    ensures DrawnForAt(log, q, i) && log[i].hash == h
  {
    var k :| 0 <= k < |log| && log[k] == Answered(q, h);
    assert JustifiedAt(log, k);
    assert Issued(q, h) in log;
    i := IssuedWasDrawn(log, q, h);
  }

  lemma RecordFrame(s: State, e: Event)
    ensures Record(s, e).tasks == s.tasks && Record(s, e).log == s.log + [e]
  {
  }

  lemma RecordIfFrame(s: State, e: Option<Event>)
    ensures RecordIf(s, e).tasks == s.tasks && RecordIf(s, e).log == LogAfter(s, e)
  {
    if e.Some? {
      RecordFrame(s, e.value);
    }
  }

  lemma ResumeDrawsNothing(s: State, t: Task, verdict: bool)
    ensures Happens(t, verdict).Some? ==> !Happens(t, verdict).value.Created?
    ensures Next(s, t, verdict).Some? ==> !Next(s, t, verdict).value.Issuing?
  {
  }

  /** The one event a step logs, if any. */
  function Logs(s: State, a: Action, sha: string -> string): Option<Event> {
    if !Enabled(s, a, sha) then None
    else
      match a
      case Watch(query, eventId) => Some(Watching(query, eventId))
      case Select(q, p) => Some(Selected(q, p))
      case RequestHash(_, q, h, x, relay) =>
        if relay && q in s.answered then Some(Answered(q, s.answered[q]))
        else if q in s.hashOf then None
        else Some(Created(q, h, x))
      case ResultEvent(_, _, _, _) =>
        if Accepts(s, a).Some? then Some(Taken(Accepts(s, a).value, a.payload.value)) else None
      case Resume(t, verdict) => Happens(s.tasks[t], verdict)
      case Stop => Some(Stopped)
      case _ => None
  }

  /** A step writes exactly what its event stands for; everything else it changes is its own task. */
  lemma StepRecords(s: State, a: Action, sha: string -> string)
    ensures Step(s, a, sha) == RecordIf(s, Logs(s, a, sha)).(tasks := Step(s, a, sha).tasks)
  {
  }

  /** A step logs at most one event, and draws only the hash of its request. */
  lemma StepLog(s: State, a: Action, sha: string -> string) returns (e: Option<Event>)
    ensures Step(s, a, sha).log == LogAfter(s, e)
    ensures e.Some? && e.value.Created? ==> e.value.hash == sha(e.value.preimage)
  {
    e := Logs(s, a, sha);
    StepRecords(s, a, sha);
    RecordIfFrame(s, e);
    if Enabled(s, a, sha) && a.Resume? {
      ResumeDrawsNothing(s, s.tasks[a.task], a.verdict);
    }
  }
}
