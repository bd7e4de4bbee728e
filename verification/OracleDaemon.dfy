/**
 The Oracle's relay daemon, split at its awaits: any number of hash requests, result events and host
 calls run interleaved. Publishing may fail; verification verdicts come from outside.
 */
module OracleDaemon {
  import opened Wrappers

  datatype QueryRef = QueryRef(id: string, quorum: bool)

  /** A result reaches verification from the relay subscription or from a host call. */
  datatype Origin = FromRelay(eventId: string) | FromHost

  datatype Submission = Submission(query: QueryRef, queryId: string, provider: string, origin: Origin)

  /** One preimage delivery. */
  datatype Release = Release(sub: Submission, hash: string, preimage: string)

  /** The readable binding inside a result event's Oracle payload. */
  datatype Payload = Payload(queryId: string, requestEventId: string)

  /** What happened, in order. */
  datatype Event =
    | Watching(query: QueryRef, eventId: string)
    | Selected(queryId: string, provider: string)
    | Created(queryId: string, hash: string, preimage: string)
    | Issued(queryId: string, hash: string)
    | Answered(queryId: string, hash: string)
    | HostAnswered(queryId: string, hash: string)
    | Taken(sub: Submission, payload: Payload)
    | Passed(sub: Submission)
    | Sent(release: Release)
    | Accepted(release: Release)
    | Deleted(release: Release)
    | Forgotten(queryId: string)
    | Undelivered(release: Release)
    | FrostSent(sub: Submission)
    | FrostDelivered(sub: Submission)
    | RejectionSent(sub: Submission)
    | Unwatched(queryId: string)
    | Stopped

  datatype Watched = Watched(query: QueryRef, eventId: string, selected: Option<string>)

  /** Where an asynchronous call is suspended. */
  datatype Task =
    | Issuing(queryId: string, hash: string, viaRelay: bool)
    | Answering(queryId: string, hash: string)
    | HostReturning(queryId: string, hash: string)
    | Verifying(sub: Submission)
    | Fetched(release: Release)
    | Publishing(release: Release, retriesLeft: nat)
    | Waiting(release: Release, retriesLeft: nat)
    | Deleting(release: Release)
    | Settling(release: Release)
    | FrostVerifying(sub: Submission)
    | FrostSigning(sub: Submission)
    | FrostPublishing(sub: Submission)
    | Refusing(sub: Submission)
    | Closing(queryId: string)

  /**
   How much of the FROST configuration the daemon was given: routing needs all of it, the direct call only the node's.
   */
  datatype FrostSetup = NoFrost | NodeOnly | Full

  /**
   `entries` is the preimage store, `answered` the responder's own memory of hashes it gave out, `retries`
   the number of configured retry delays.
   */
  datatype State = State(
    watched: map<string, Watched>, hashOf: map<string, string>, answered: map<string, string>,
    entries: map<string, string>, tasks: map<nat, Task>, retries: nat, frost: FrostSetup, log: seq<Event>)

  datatype Action =
    | Watch(query: QueryRef, eventId: string)
    | Select(queryId: string, provider: string)
    | RequestHash(task: nat, queryId: string, hash: string, preimage: string, viaRelay: bool)
    | ResultEvent(task: nat, queryId: string, author: string, payload: Option<Payload>)
    | HostDeliver(task: nat, queryId: string, query: QueryRef, provider: string)
    | HostDeliverWithFrost(task: nat, queryId: string, query: QueryRef, provider: string)
    | Resume(task: nat, verdict: bool)
    | Stop

  function Init(retries: nat, frost: FrostSetup): State {
    State(map[], map[], map[], map[], map[], retries, frost, [])
  }

  /** An event together with the write it stands for. */
  function Record(s: State, e: Event): State {
    var s := s.(log := s.log + [e]);
    match e
    case Watching(query, eventId) => s.(watched := s.watched[query.id := Watched(query, eventId, None)])
    case Selected(q, p) =>
      if q in s.watched then s.(watched := s.watched[q := s.watched[q].(selected := Some(p))]) else s
    case Created(_, h, x) => s.(entries := s.entries[h := x])
    case Issued(q, h) => s.(hashOf := s.hashOf[q := h])
    case Answered(q, h) => s.(answered := s.answered[q := h])
    case Deleted(r) => s.(entries := s.entries - {r.hash})
    case Forgotten(q) => s.(hashOf := s.hashOf - {q})
    case Unwatched(q) => s.(watched := s.watched - {q})
    case Stopped => s.(watched := map[])
    case _ => s
  }

  function RecordIf(s: State, e: Option<Event>): State {
    if e.Some? then Record(s, e.value) else s
  }

  function SetTask(s: State, id: nat, t: Option<Task>): State {
    s.(tasks := if t.Some? then s.tasks[id := t.value] else s.tasks - {id})
  }

  /** Route a result: quorum queries never reach the preimage path. */
  function Dispatch(s: State, sub: Submission): Task {
    if !sub.query.quorum then Verifying(sub)
    else if s.frost.Full? then FrostVerifying(sub)
    else Refusing(sub)
  }

  /** The host's direct FROST call. */
  function DispatchFrost(s: State, sub: Submission): Task {
    if s.frost.NoFrost? then Refusing(sub) else FrostVerifying(sub)
  }

  /**
   A hash request, over the relay or from the host. The responder first consults what it already answered;
   then the query's commitment is reused or a new preimage is drawn (`hash`, `preimage`).
   */
  function OnHashRequest(s: State, a: Action): State
    requires a.RequestHash?
  {
    if a.viaRelay && a.queryId in s.answered then Record(s, Answered(a.queryId, s.answered[a.queryId]))
    else if a.queryId in s.hashOf then
      SetTask(s, a.task, Some(Returning(a.queryId, s.hashOf[a.queryId], a.viaRelay)))
    else SetTask(Record(s, Created(a.queryId, a.hash, a.preimage)), a.task,
      Some(Issuing(a.queryId, a.hash, a.viaRelay)))
  }

  /** A request whose hash is known: it is answered over the relay or returned to the host. */
  function Returning(q: string, h: string, viaRelay: bool): Task {
    if viaRelay then Answering(q, h) else HostReturning(q, h)
  }

  /** The submission in a result event: none unless it comes from the recorded Provider and is bound to the watch. */
  function Accepts(s: State, a: Action): (sub: Option<Submission>)
    requires a.ResultEvent?
    ensures sub.Some? ==> a.payload.Some?
  {
    if a.queryId !in s.watched then None
    else
      var entry := s.watched[a.queryId];
      if entry.selected != Some(a.author) then None
      else if a.payload.None? then None
      else if a.payload.value.queryId != entry.query.id || a.payload.value.requestEventId != entry.eventId then None
      else Some(Submission(entry.query, a.queryId, a.author, FromRelay(entry.eventId)))
  }

  function OnResultEvent(s: State, a: Action): State
    requires a.ResultEvent?
  {
    var sub := Accepts(s, a);
    if sub.None? then s
    else SetTask(Record(s, Taken(sub.value, a.payload.value)), a.task, Some(Dispatch(s, sub.value)))
  }

  /** The stored preimage for the query's current commitment. */
  function Commitment(s: State, sub: Submission): Option<Release> {
    if sub.queryId in s.hashOf && s.hashOf[sub.queryId] in s.entries
    then Some(Release(sub, s.hashOf[sub.queryId], s.entries[s.hashOf[sub.queryId]]))
    else None
  }

  /** What a resumed call does before it suspends again; `verdict` is the awaited answer. */
  function Happens(t: Task, verdict: bool): Option<Event> {
    match t
    case Issuing(q, h, _) => Some(Issued(q, h))
    case Answering(q, h) => Some(Answered(q, h))
    case HostReturning(q, h) => Some(HostAnswered(q, h))
    case Verifying(sub) => if verdict then Some(Passed(sub)) else None
    case Fetched(r) => Some(Sent(r))
    case Publishing(r, n) => if verdict then Some(Accepted(r)) else if n == 0 then Some(Undelivered(r)) else None
    case Waiting(r, _) => Some(Sent(r))
    case Deleting(r) => Some(Deleted(r))
    case Settling(r) => Some(Forgotten(r.sub.queryId))
    case FrostVerifying(sub) => if verdict then Some(Passed(sub)) else None
    case FrostSigning(sub) => if verdict then Some(FrostSent(sub)) else None
    case FrostPublishing(sub) => if verdict then Some(FrostDelivered(sub)) else None
    case Refusing(sub) => Some(RejectionSent(sub))
    case Closing(q) => Some(Unwatched(q))
  }

  /** Where it suspends next; None when it returns. A failed delivery returns without closing the watch. */
  function Next(s: State, t: Task, verdict: bool): Option<Task> {
    match t
    case Issuing(q, h, viaRelay) => Some(Returning(q, h, viaRelay))
    case Answering(_, _) => None
    case HostReturning(_, _) => None
    case Verifying(sub) =>
      if verdict && Commitment(s, sub).Some? then Some(Fetched(Commitment(s, sub).value)) else Some(Refusing(sub))
    case Fetched(r) => Some(Publishing(r, s.retries))
    case Publishing(r, n) => if verdict then Some(Deleting(r)) else if n == 0 then None else Some(Waiting(r, n - 1))
    case Waiting(r, n) => Some(Publishing(r, n))
    case Deleting(r) => Some(Settling(r))
    case Settling(r) => Some(Closing(r.sub.queryId))
    case FrostVerifying(sub) => Some(if verdict then FrostSigning(sub) else Refusing(sub))
    case FrostSigning(sub) => Some(if verdict then FrostPublishing(sub) else Refusing(sub))
    case FrostPublishing(sub) => if verdict then Some(Closing(sub.queryId)) else None
    case Refusing(sub) => Some(Closing(sub.queryId))
    case Closing(_) => None
  }

  function OnResume(s: State, id: nat, verdict: bool): State
    requires id in s.tasks
  {
    SetTask(RecordIf(s, Happens(s.tasks[id], verdict)), id, Next(s, s.tasks[id], verdict))
  }

  /** A new call needs an unused task id, and a drawn preimage a hash never drawn before. */
  predicate Enabled(s: State, a: Action, sha: string -> string) {
    match a
    case Watch(_, _) => true
    case Select(q, _) => q in s.watched
    case RequestHash(t, _, h, x, _) =>
      t !in s.tasks && sha(x) == h && forall e :: e in s.log && e.Created? ==> e.hash != h
    case ResultEvent(t, _, _, _) => t !in s.tasks
    case HostDeliver(t, _, _, _) => t !in s.tasks
    case HostDeliverWithFrost(t, _, _, _) => t !in s.tasks
    case Resume(t, _) => t in s.tasks
    case Stop => true
  }

  function Step(s: State, a: Action, sha: string -> string): State {
    if !Enabled(s, a, sha) then s
    else
      match a
      case Watch(query, eventId) => Record(s, Watching(query, eventId))
      case Select(q, p) => Record(s, Selected(q, p))
      case RequestHash(_, _, _, _, _) => OnHashRequest(s, a)
      case ResultEvent(_, _, _, _) => OnResultEvent(s, a)
      case HostDeliver(t, q, query, p) => SetTask(s, t, Some(Dispatch(s, Submission(query, q, p, FromHost))))
      case HostDeliverWithFrost(t, q, query, p) => SetTask(s, t,
        Some(DispatchFrost(s, Submission(query, q, p, FromHost))))
      case Resume(t, verdict) => OnResume(s, t, verdict)
      case Stop => Record(s, Stopped)
  }

  function Exec(s: State, actions: seq<Action>, sha: string -> string): State {
    if actions == [] then s else Step(Exec(s, actions[..|actions| - 1], sha), actions[|actions| - 1], sha)
  }

  // ---- What every run keeps ----

  /** The watch of a query that a history leaves in place, with the Provider selected last under it. */
  function WatchIn(past: seq<Event>, q: string): Option<Watched> {
    if past == [] then None
    else
      var before := WatchIn(past[..|past| - 1], q);
      match past[|past| - 1]
      case Watching(query, eventId) => if query.id == q then Some(Watched(query, eventId, None)) else before
      case Selected(id, p) => if id == q && before.Some? then Some(before.value.(selected := Some(p))) else before
      case Unwatched(id) => if id == q then None else before
      case Stopped => None
      case _ => before
  }

  /**
   The event at k takes the result while the watch in place is this query's, for this request event, with this
   Provider selected; and the result's own payload names that query and that event.
   */
  predicate TakenAt(past: seq<Event>, k: nat, sub: Submission) {
    && k < |past| && sub.origin.FromRelay? && sub.query.id == sub.queryId
    && past[k] == Taken(sub, Payload(sub.queryId, sub.origin.eventId))
    && WatchIn(past[..k], sub.queryId) == Some(Watched(sub.query, sub.origin.eventId, Some(sub.provider)))
  }

  /** A relay result was taken from the watch in place and from the Provider recorded in it. */
  ghost predicate OriginOk(past: seq<Event>, sub: Submission) {
    sub.origin.FromRelay? ==> exists k: nat :: TakenAt(past, k, sub)
  }

  /** What must have happened before a preimage leaves the Oracle. */
  ghost predicate ReleaseOk(past: seq<Event>, r: Release) {
    && !r.sub.query.quorum
    && Passed(r.sub) in past
    && OriginOk(past, r.sub)
    && Issued(r.sub.queryId, r.hash) in past
    && Created(r.sub.queryId, r.hash, r.preimage) in past
  }

  /** Some relay accepted a preimage delivery for the query. */
  ghost predicate Settled(past: seq<Event>, q: string) {
    exists r: Release :: r.sub.queryId == q && Accepted(r) in past
  }

  /** A call for the query reached a terminal outcome: delivered, or answered with a rejection. */
  ghost predicate Ended(past: seq<Event>, q: string) {
    || Settled(past, q)
    || exists sub: Submission :: sub.queryId == q && (FrostDelivered(sub) in past || RejectionSent(sub) in past)
  }

  ghost predicate Justified(past: seq<Event>, e: Event) {
    match e
    case Selected(q, _) => WatchIn(past, q).Some?
    case Taken(sub, payload) =>
      && sub.origin.FromRelay? && sub.query.id == sub.queryId
      && payload == Payload(sub.queryId, sub.origin.eventId)
      && WatchIn(past, sub.queryId) == Some(Watched(sub.query, sub.origin.eventId, Some(sub.provider)))
    case Issued(q, h) => exists x :: Created(q, h, x) in past
    case Answered(q, h) => Issued(q, h) in past
    case HostAnswered(q, h) => Issued(q, h) in past
    case Forgotten(q) => Settled(past, q)
    case Unwatched(q) => Ended(past, q)
    case FrostDelivered(sub) => FrostSent(sub) in past
    case Passed(sub) => OriginOk(past, sub)
    case Sent(r) => ReleaseOk(past, r)
    case Accepted(r) => Sent(r) in past
    case Deleted(r) => Accepted(r) in past
    case FrostSent(sub) => Passed(sub) in past && OriginOk(past, sub)
    case _ => true
  }

  ghost predicate JustifiedAt(log: seq<Event>, k: nat) {
    k < |log| ==> Justified(log[..k], log[k])
  }

  ghost predicate LogOk(log: seq<Event>) {
    forall k :: JustifiedAt(log, k)
  }

  ghost predicate SameCreation(log: seq<Event>, i: nat, j: nat) {
    i < |log| && j < |log| && log[i].Created? && log[j].Created? && log[i].hash == log[j].hash ==> i == j
  }

  /** No hash is drawn twice. */
  ghost predicate UniqueHashes(log: seq<Event>) {
    forall i, j :: SameCreation(log, i, j)
  }

  ghost predicate EntryOk(log: seq<Event>, hash: string, preimage: string) {
    exists q :: Created(q, hash, preimage) in log
  }

  ghost predicate TaskOk(log: seq<Event>, t: Task) {
    match t
    case Issuing(q, h, _) => exists x :: Created(q, h, x) in log
    case Answering(q, h) => Issued(q, h) in log
    case HostReturning(q, h) => Issued(q, h) in log
    case Verifying(sub) => !sub.query.quorum && OriginOk(log, sub)
    case FrostVerifying(sub) => OriginOk(log, sub)
    case FrostSigning(sub) => OriginOk(log, sub) && Passed(sub) in log
    case Fetched(r) => ReleaseOk(log, r)
    case Publishing(r, _) => ReleaseOk(log, r) && Sent(r) in log
    case Waiting(r, _) => ReleaseOk(log, r)
    case Deleting(r) => Accepted(r) in log
    case Settling(r) => Accepted(r) in log
    case FrostPublishing(sub) => FrostSent(sub) in log
    case Closing(q) => Ended(log, q)
    case Refusing(_) => true
  }

  function WatchOf(watched: map<string, Watched>, q: string): Option<Watched> {
    if q in watched then Some(watched[q]) else None
  }

  /** The watches held are exactly those the history leaves in place. */
  ghost predicate WatchesOk(log: seq<Event>, watched: map<string, Watched>) {
    forall q :: WatchOf(watched, q) == WatchIn(log, q)
  }

  ghost predicate IssuedOk(log: seq<Event>, hashes: map<string, string>) {
    forall q :: q in hashes ==> Issued(q, hashes[q]) in log
  }

  ghost predicate EntriesOk(log: seq<Event>, entries: map<string, string>) {
    forall h :: h in entries ==> EntryOk(log, h, entries[h])
  }

  ghost predicate TasksOk(log: seq<Event>, tasks: map<nat, Task>) {
    forall t :: t in tasks ==> TaskOk(log, tasks[t])
  }

  ghost predicate Inv(s: State) {
    && LogOk(s.log)
    && UniqueHashes(s.log)
    && WatchesOk(s.log, s.watched)
    && IssuedOk(s.log, s.hashOf)
    && IssuedOk(s.log, s.answered)
    && EntriesOk(s.log, s.entries)
    && TasksOk(s.log, s.tasks)
  }

  lemma LogSnoc(log: seq<Event>, e: Event)
    requires LogOk(log) && Justified(log, e)
    ensures LogOk(log + [e])
  {
    forall k: nat
      ensures JustifiedAt(log + [e], k)
    {
      if k < |log| {
        assert JustifiedAt(log, k);
        assert (log + [e])[..k] == log[..k];
      } else if k == |log| {
        assert (log + [e])[..k] == log;
      }
    }
  }

  lemma UniqueSnoc(log: seq<Event>, e: Event)
    requires UniqueHashes(log) && (e.Created? ==> forall f :: f in log && f.Created? ==> f.hash != e.hash)
    ensures UniqueHashes(log + [e])
  {
    forall i: nat, j: nat
      ensures SameCreation(log + [e], i, j)
    {
      assert SameCreation(log, i, j);
      assert i < |log| ==> log[i] in log;
      assert j < |log| ==> log[j] in log;
    }
  }

  /** Tasks stay justified as the log grows. */
  lemma TaskOkGrows(log: seq<Event>, e: Event, t: Task)
    requires TaskOk(log, t)
    ensures TaskOk(log + [e], t)
  {
    assert forall f :: f in log ==> f in log + [e];
    match t
    case Closing(q) => EndedGrows(log, e, q);
    case Verifying(sub) => OriginGrows(log, e, sub);
    case FrostVerifying(sub) => OriginGrows(log, e, sub);
    case FrostSigning(sub) => OriginGrows(log, e, sub);
    case Fetched(r) => OriginGrows(log, e, r.sub);
    case Publishing(r, _) => OriginGrows(log, e, r.sub);
    case Waiting(r, _) => OriginGrows(log, e, r.sub);
    case _ =>
  }

  lemma OriginGrows(log: seq<Event>, e: Event, sub: Submission)
    requires OriginOk(log, sub)
    ensures OriginOk(log + [e], sub)
  {
    if sub.origin.FromRelay? {
      var k: nat :| TakenAt(log, k, sub);
      assert (log + [e])[..k] == log[..k];
      assert TakenAt(log + [e], k, sub);
    }
  }

  lemma EndedGrows(log: seq<Event>, e: Event, q: string)
    requires Ended(log, q)
    ensures Ended(log + [e], q)
  {
    assert forall f :: f in log ==> f in log + [e];
  }

  lemma WatchesGrow(s: State, e: Event)
    requires WatchesOk(s.log, s.watched) && Justified(s.log, e)
    ensures WatchesOk(s.log + [e], Record(s, e).watched)
  {
    assert (s.log + [e])[..|s.log|] == s.log;
    var watched := Record(s, e).watched;
    forall q
      ensures WatchOf(watched, q) == WatchIn(s.log + [e], q)
    {
      assert WatchOf(s.watched, q) == WatchIn(s.log, q);
      if e.Selected? {
        assert WatchOf(s.watched, e.queryId) == WatchIn(s.log, e.queryId);
      }
    }
  }

  lemma {:induction false} WatchIsForQuery(past: seq<Event>, q: string)
    ensures WatchIn(past, q).Some? ==> WatchIn(past, q).value.query.id == q
  {
    if past != [] {
      WatchIsForQuery(past[..|past| - 1], q);
    }
  }

  lemma HashesGrow(s: State, e: Event)
    requires IssuedOk(s.log, s.hashOf) && IssuedOk(s.log, s.answered) && Justified(s.log, e)
    ensures IssuedOk(s.log + [e], Record(s, e).hashOf) && IssuedOk(s.log + [e], Record(s, e).answered)
  {
    assert forall f :: f in s.log + [e] <==> f in s.log || f == e;
  }

  lemma EntriesGrow(s: State, e: Event)
    requires EntriesOk(s.log, s.entries)
    ensures EntriesOk(s.log + [e], Record(s, e).entries)
  {
    assert forall f :: f in s.log + [e] <==> f in s.log || f == e;
    var entries := Record(s, e).entries;
    forall h | h in entries
      ensures EntryOk(s.log + [e], h, entries[h])
    {
      if !(e.Created? && e.hash == h) {
        assert EntryOk(s.log, h, s.entries[h]);
      }
    }
  }

  /** Recording a justified event keeps the invariant. */
  lemma RecordKeepsInv(s: State, e: Event)
    requires Inv(s) && Justified(s.log, e)
    requires e.Created? ==> forall f :: f in s.log && f.Created? ==> f.hash != e.hash
    ensures Inv(Record(s, e)) && Record(s, e).log == s.log + [e] && Record(s, e).tasks == s.tasks
  {
    LogSnoc(s.log, e);
    UniqueSnoc(s.log, e);
    WatchesGrow(s, e);
    HashesGrow(s, e);
    EntriesGrow(s, e);
    forall t | t in s.tasks { TaskOkGrows(s.log, e, s.tasks[t]); }
  }

  lemma SetTaskKeepsInv(s: State, id: nat, t: Option<Task>)
    requires Inv(s) && (t.Some? ==> TaskOk(s.log, t.value))
    ensures Inv(SetTask(s, id, t))
  {
  }

  /** The commitment read for a query is the one created for it. */
  lemma CommitmentBelongs(s: State, q: string)
    requires Inv(s) && q in s.hashOf && s.hashOf[q] in s.entries
    ensures Created(q, s.hashOf[q], s.entries[s.hashOf[q]]) in s.log
  {
    var h := s.hashOf[q];
    var k :| 0 <= k < |s.log| && s.log[k] == Issued(q, h);
    assert JustifiedAt(s.log, k);
    var x :| Created(q, h, x) in s.log[..k];
    assert EntryOk(s.log, h, s.entries[h]);
    var q1 :| Created(q1, h, s.entries[h]) in s.log;
    assert Created(q, h, x) in s.log;
    var i :| 0 <= i < |s.log| && s.log[i] == Created(q, h, x);
    var j :| 0 <= j < |s.log| && s.log[j] == Created(q1, h, s.entries[h]);
    assert SameCreation(s.log, i, j);
  }

  /** What a resumed call does is justified when it does it. */
  lemma HappensIsJustified(s: State, id: nat, verdict: bool)
    requires Inv(s) && id in s.tasks
    ensures var e := Happens(s.tasks[id], verdict);
      e.Some? ==> Justified(s.log, e.value) && !e.value.Created?
  {
    assert TaskOk(s.log, s.tasks[id]);
  }

  function LogAfter(s: State, e: Option<Event>): seq<Event> {
    if e.Some? then s.log + [e.value] else s.log
  }

  lemma NextIsOk(s: State, id: nat, verdict: bool)
    requires Inv(s) && id in s.tasks
    ensures var t := Next(s, s.tasks[id], verdict);
      t.Some? ==> TaskOk(LogAfter(s, Happens(s.tasks[id], verdict)), t.value)
  {
    var t, e := s.tasks[id], Happens(s.tasks[id], verdict);
    assert TaskOk(s.log, t);
    if e.Some? {
      TaskOkGrows(s.log, e.value, t);
    }
    if t.Verifying? && verdict && Commitment(s, t.sub).Some? {
      CommitmentBelongs(s, t.sub.queryId);
    }
    if e.Some? {
      assert (s.log + [e.value])[|s.log|] == e.value;
    }
  }

  lemma ResumeKeepsInv(s: State, id: nat, verdict: bool)
    requires Inv(s) && id in s.tasks
    ensures Inv(OnResume(s, id, verdict))
  {
    var e := Happens(s.tasks[id], verdict);
    HappensIsJustified(s, id, verdict);
    if e.Some? {
      RecordKeepsInv(s, e.value);
    }
    NextIsOk(s, id, verdict);
    SetTaskKeepsInv(RecordIf(s, e), id, Next(s, s.tasks[id], verdict));
  }

  lemma HashRequestKeepsInv(s: State, a: Action, sha: string -> string)
    requires Inv(s) && a.RequestHash? && Enabled(s, a, sha)
    ensures Inv(OnHashRequest(s, a))
  {
    if a.viaRelay && a.queryId in s.answered {
      RecordKeepsInv(s, Answered(a.queryId, s.answered[a.queryId]));
    } else if a.queryId in s.hashOf {
      SetTaskKeepsInv(s, a.task, Some(Returning(a.queryId, s.hashOf[a.queryId], a.viaRelay)));
    } else {
      var e := Created(a.queryId, a.hash, a.preimage);
      RecordKeepsInv(s, e);
      assert e in Record(s, e).log;
      SetTaskKeepsInv(Record(s, e), a.task, Some(Issuing(a.queryId, a.hash, a.viaRelay)));
    }
  }

  lemma ResultEventKeepsInv(s: State, a: Action)
    requires Inv(s) && a.ResultEvent?
    ensures Inv(OnResultEvent(s, a))
  {
    var sub := Accepts(s, a);
    if sub.Some? {
      var e := Taken(sub.value, a.payload.value);
      assert WatchOf(s.watched, a.queryId) == WatchIn(s.log, a.queryId);
      WatchIsForQuery(s.log, a.queryId);
      RecordKeepsInv(s, e);
      assert (s.log + [e])[..|s.log|] == s.log;
      assert TakenAt(s.log + [e], |s.log|, sub.value);
      SetTaskKeepsInv(Record(s, e), a.task, Some(Dispatch(s, sub.value)));
    }
  }

  lemma StepKeepsInv(s: State, a: Action, sha: string -> string)
    requires Inv(s)
    ensures Inv(Step(s, a, sha))
  {
    if Enabled(s, a, sha) {
      match a
      case Watch(query, eventId) => RecordKeepsInv(s, Watching(query, eventId));
      case Select(q, p) =>
        assert WatchOf(s.watched, q) == WatchIn(s.log, q);
        RecordKeepsInv(s, Selected(q, p));
      case RequestHash(_, _, _, _, _) => HashRequestKeepsInv(s, a, sha);
      case ResultEvent(_, _, _, _) => ResultEventKeepsInv(s, a);
      case HostDeliver(t, q, query, p) => SetTaskKeepsInv(s, t, Some(Dispatch(s, Submission(query, q, p, FromHost))));
      case HostDeliverWithFrost(t, q, query, p) =>
        SetTaskKeepsInv(s, t, Some(DispatchFrost(s, Submission(query, q, p, FromHost))));
      case Resume(t, verdict) => ResumeKeepsInv(s, t, verdict);
      case Stop => RecordKeepsInv(s, Stopped);
    }
  }

  lemma {:induction false} EveryRunKeepsInv(
    retries: nat, frost: FrostSetup, actions: seq<Action>, sha: string -> string)
    ensures Inv(Exec(Init(retries, frost), actions, sha))
  {
    if actions != [] {
      EveryRunKeepsInv(retries, frost, actions[..|actions| - 1], sha);
      StepKeepsInv(Exec(Init(retries, frost), actions[..|actions| - 1], sha), actions[|actions| - 1], sha);
    }
  }

  /**
   In every interleaved run, a preimage leaves the Oracle only after verification passed for that query and
   Provider, never for a quorum query, and always as the commitment issued for that query; a release driven
   by the relay answers a result that was taken while the watch in place was for that request event and had
   that Provider selected last, and whose payload names that query and event. A preimage is deleted, and its query's
   commitment forgotten, only after a relay accepted it, and a watch is closed only after a terminal outcome.
   */
  lemma ReleaseSafety(retries: nat, frost: FrostSetup, actions: seq<Action>, sha: string -> string, k: nat)
    requires k < |Exec(Init(retries, frost), actions, sha).log|
    ensures var log := Exec(Init(retries, frost), actions, sha).log;
      && (log[k].Sent? ==> ReleaseOk(log[..k], log[k].release))
      && (log[k].Deleted? ==> Accepted(log[k].release) in log[..k] && Sent(log[k].release) in log[..k])
      && (log[k].Forgotten? ==> Settled(log[..k], log[k].queryId))
      && (log[k].Unwatched? ==> Ended(log[..k], log[k].queryId))
      && (log[k].FrostSent? ==> Passed(log[k].sub) in log[..k] && OriginOk(log[..k], log[k].sub))
  {
    EveryRunKeepsInv(retries, frost, actions, sha);
    var log := Exec(Init(retries, frost), actions, sha).log;
    assert JustifiedAt(log, k);
    if log[k].Deleted? {
      var r := log[k].release;
      var j :| 0 <= j < k && log[..k][j] == Accepted(r);
      assert JustifiedAt(log, j);
      assert Sent(r) in log[..j];
      assert log[..j] <= log[..k];
    }
  }
}
