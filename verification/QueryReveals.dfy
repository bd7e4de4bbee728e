/** Exactly when the preimage of one hash is returned twice, over every interleaved run of the query service. */
module QueryReveals {
  import opened Wrappers
  import opened Query
  import opened Quorum
  import opened QueryMachine
  import opened QuerySafety
  import opened QuerySequential
  import QueryArtifacts

  // ---- Reads and returns ----

  /** The call found the preimage of the hash when it read the store. */
  predicate FoundAt(log: seq<Event>, k: nat, t: nat, hash: string) {
    k < |log| && log[k] == Read(t, hash, true)
  }

  predicate ReturnsAt(log: seq<Event>, k: nat, t: nat) {
    k < |log| && log[k].Returned? && log[k].task == t
  }

  /** A suspended call has not returned, and found a preimage only if it is about to delete it. */
  ghost predicate TaskOpen(log: seq<Event>, t: nat, task: Task) {
    && (forall k: nat :: !ReturnsAt(log, k, t))
    && (forall k: nat, h: string :: FoundAt(log, k, t, h) ==> task.AwaitDelete? && task.hash == h)
  }

  ghost predicate TasksOpen(s: State) { forall t :: t in s.tasks ==> TaskOpen(s.log, t, s.tasks[t]) }

  /** Calls that read or returned were numbered before. */
  ghost predicate OldCalls(log: seq<Event>, next: nat) {
    && (forall k: nat, t: nat :: ReturnsAt(log, k, t) ==> t < next)
    && (forall k: nat, t: nat, h: string :: FoundAt(log, k, t, h) ==> t < next)
  }

  ghost predicate ReturnOnce(log: seq<Event>) {
    forall i: nat, j: nat, t: nat :: ReturnsAt(log, i, t) && ReturnsAt(log, j, t) ==> i == j
  }

  /** A call that found a preimage and returned has returned it, after finding it. */
  ghost predicate FoundIsReturned(log: seq<Event>) {
    forall a: nat, k: nat, t: nat, h: string :: FoundAt(log, a, t, h) && ReturnsAt(log, k, t) ==>
      a < k && RevealAt(log, k, h)
  }

  /** Once returned, the preimage is not found again. */
  ghost predicate NotFoundAgain(log: seq<Event>) {
    forall a: nat, k: nat, t: nat, h: string :: FoundAt(log, a, t, h) && RevealAt(log, k, h) ==> a < k
  }

  predicate IssuedOnce(s: State) {
    forall k: nat :: k < |s.log| && s.log[k].Issued? ==> s.log[k].hash in s.issued
  }

  ghost predicate RevealInv(s: State) {
    && TasksOpen(s) && OldCalls(s.log, s.next) && ReturnOnce(s.log)
    && FoundIsReturned(s.log) && NotFoundAgain(s.log) && GoneOk(s) && IssuedOnce(s)
  }

  // ---- Steps that find nothing and return no preimage ----

  /** The call ends now without a preimage. */
  predicate Leaves(s: State, r: State, t: nat) {
    t !in r.tasks && t < r.next && (if t in s.tasks then !s.tasks[t].AwaitDelete? else t >= s.next)
  }

  predicate MildEvent(s: State, r: State, e: Event) {
    match e
    case Read(_, _, found) => !found
    case Returned(t, _, o) => o.preimage.None? && Leaves(s, r, t)
    case Issued(hash, _) => hash in r.issued
    case _ => true
  }

  predicate NewReturn(s: State, r: State, k: nat) { |s.log| <= k < |r.log| && r.log[k].Returned? }

  ghost predicate MildLog(s: State, r: State) {
    && s.log <= r.log
    && (forall k :: |s.log| <= k < |r.log| ==> MildEvent(s, r, r.log[k]))
    && (forall i: nat, j: nat :: NewReturn(s, r, i) && NewReturn(s, r, j) ==> i == j)
  }

  predicate MildTask(s: State, r: State, u: nat)
    requires u in r.tasks
  {
    if u in s.tasks then r.tasks[u] == s.tasks[u] || (!s.tasks[u].AwaitDelete? && !r.tasks[u].AwaitDelete?)
    else s.next <= u < r.next && !r.tasks[u].AwaitDelete?
  }

  predicate MildTasks(s: State, r: State) {
    s.next <= r.next && forall u :: u in r.tasks ==> MildTask(s, r, u)
  }

  predicate MildStore(s: State, r: State) {
    && s.issued <= r.issued
    && forall h :: h in r.preimages ==> h in r.issued && (h in s.preimages || h !in s.issued)
  }

  ghost predicate Mild(s: State, r: State) { MildLog(s, r) && MildTasks(s, r) && MildStore(s, r) }

  lemma RevealPrefix(log: seq<Event>, longer: seq<Event>, k: nat, h: string)
    requires log <= longer && k < |log|
    ensures RevealAt(longer, k, h) <==> RevealAt(log, k, h)
  {
    assert longer[..k] == log[..k];
  }

  /** In a longer history, what was found or returned before is the same, and mild events find nothing. */
  lemma MildFinds(s: State, r: State, k: nat, t: nat, h: string)
    requires MildLog(s, r)
    ensures FoundAt(r.log, k, t, h) <==> FoundAt(s.log, k, t, h)
  {
    if |s.log| <= k < |r.log| {
      assert MildEvent(s, r, r.log[k]);
    }
  }

  lemma MildReturns(s: State, r: State, k: nat, t: nat)
    requires MildLog(s, r)
    ensures ReturnsAt(r.log, k, t) <==>
      ReturnsAt(s.log, k, t) || (|s.log| <= k && ReturnsAt(r.log, k, t) && Leaves(s, r, t))
  {
    if |s.log| <= k < |r.log| {
      assert MildEvent(s, r, r.log[k]);
    }
  }

  lemma MildReveals(s: State, r: State, k: nat, h: string)
    requires MildLog(s, r)
    ensures RevealAt(r.log, k, h) <==> RevealAt(s.log, k, h)
  {
    if k < |s.log| {
      RevealPrefix(s.log, r.log, k, h);
    } else if k < |r.log| {
      assert MildEvent(s, r, r.log[k]);
    }
  }

  /** A call that leaves had neither returned nor found anything. */
  lemma LeaverIsBare(s: State, r: State, t: nat)
    requires RevealInv(s) && Leaves(s, r, t)
    ensures forall k: nat :: !ReturnsAt(s.log, k, t)
    ensures forall k: nat, h: string :: !FoundAt(s.log, k, t, h)
  {
    if t in s.tasks {
      assert TaskOpen(s.log, t, s.tasks[t]);
    }
  }

  lemma MildKeepsTasks(s: State, r: State)
    requires RevealInv(s) && TasksOk(s) && Mild(s, r)
    ensures TasksOpen(r)
  {
    forall u | u in r.tasks
      ensures TaskOpen(r.log, u, r.tasks[u])
    {
      assert MildTask(s, r, u);
      forall k: nat
        ensures !ReturnsAt(r.log, k, u)
      {
        MildReturns(s, r, k, u);
        assert u in s.tasks ==> TaskOpen(s.log, u, s.tasks[u]);
      }
      forall k: nat, h: string | FoundAt(r.log, k, u, h)
        ensures r.tasks[u].AwaitDelete? && r.tasks[u].hash == h
      {
        MildFinds(s, r, k, u, h);
        assert u in s.tasks ==> TaskOpen(s.log, u, s.tasks[u]);
      }
    }
  }

  lemma MildKeepsReturns(s: State, r: State)
    requires RevealInv(s) && Mild(s, r)
    ensures OldCalls(r.log, r.next) && ReturnOnce(r.log)
  {
    forall k: nat, t: nat | ReturnsAt(r.log, k, t)
      ensures t < r.next
    {
      MildReturns(s, r, k, t);
    }
    forall k: nat, t: nat, h: string | FoundAt(r.log, k, t, h)
      ensures t < r.next
    {
      MildFinds(s, r, k, t, h);
    }
    forall i: nat, j: nat, t: nat | ReturnsAt(r.log, i, t) && ReturnsAt(r.log, j, t)
      ensures i == j
    {
      MildReturns(s, r, i, t);
      MildReturns(s, r, j, t);
      assert i >= |s.log| ==> NewReturn(s, r, i);
      assert j >= |s.log| ==> NewReturn(s, r, j);
      if Leaves(s, r, t) {
        LeaverIsBare(s, r, t);
      }
    }
  }

  lemma MildKeepsReveals(s: State, r: State)
    requires RevealInv(s) && Mild(s, r)
    ensures FoundIsReturned(r.log) && NotFoundAgain(r.log) && GoneOk(r) && IssuedOnce(r)
  {
    forall a: nat, k: nat, t: nat, h: string | FoundAt(r.log, a, t, h) && ReturnsAt(r.log, k, t)
      ensures a < k && RevealAt(r.log, k, h)
    {
      MildFinds(s, r, a, t, h);
      MildReturns(s, r, k, t);
      MildReveals(s, r, k, h);
      if Leaves(s, r, t) {
        LeaverIsBare(s, r, t);
      }
    }
    forall a: nat, k: nat, t: nat, h: string | FoundAt(r.log, a, t, h) && RevealAt(r.log, k, h)
      ensures a < k
    {
      MildFinds(s, r, a, t, h);
      MildReveals(s, r, k, h);
    }
    forall k: nat, h: string | RevealAt(r.log, k, h)
      ensures h !in r.preimages && h in r.issued
    {
      MildReveals(s, r, k, h);
    }
    forall k: nat | k < |r.log| && r.log[k].Issued?
      ensures r.log[k].hash in r.issued
    {
      if k >= |s.log| {
        assert MildEvent(s, r, r.log[k]);
      }
    }
  }

  lemma MildKeepsInv(s: State, r: State)
    requires RevealInv(s) && TasksOk(s) && Mild(s, r)
    ensures RevealInv(r)
  {
    MildKeepsTasks(s, r);
    MildKeepsReturns(s, r);
    MildKeepsReveals(s, r);
  }

  // ---- Finding and returning a preimage ----

  lemma FindKeepsInv(s: State, t: nat)
    requires RevealInv(s) && TasksOk(s) && t in s.tasks && s.tasks[t].AwaitRead? && Stored(s, s.tasks[t].hash)
    ensures RevealInv(ContinueRead(s, t, s.tasks[t]))
  {
    var h := s.tasks[t].hash;
    var r := ContinueRead(s, t, s.tasks[t]);
    assert r.log == s.log + [Read(t, h, true)];
    assert TaskOpen(s.log, t, s.tasks[t]);
    forall k: nat, u: nat
      ensures ReturnsAt(r.log, k, u) <==> ReturnsAt(s.log, k, u)
    {
    }
    forall k: nat, u: nat, g: string
      ensures FoundAt(r.log, k, u, g) <==> FoundAt(s.log, k, u, g) || (k == |s.log| && u == t && g == h)
    {
    }
    forall k: nat, g: string
      ensures RevealAt(r.log, k, g) <==> RevealAt(s.log, k, g)
    {
      RevealSnoc(s.log, Read(t, h, true), k, g);
    }
    FindKeepsTasks(s, t);
  }

  lemma FindKeepsTasks(s: State, t: nat)
    requires RevealInv(s) && t in s.tasks && s.tasks[t].AwaitRead? && Stored(s, s.tasks[t].hash)
    ensures TasksOpen(ContinueRead(s, t, s.tasks[t]))
  {
    var r := ContinueRead(s, t, s.tasks[t]);
    assert TaskOpen(s.log, t, s.tasks[t]);
    forall u | u in r.tasks
      ensures TaskOpen(r.log, u, r.tasks[u])
    {
      assert TaskOpen(s.log, u, s.tasks[u]);
      forall k: nat
        ensures !ReturnsAt(r.log, k, u)
      {
        assert !ReturnsAt(s.log, k, u);
      }
      forall k: nat, g: string | FoundAt(r.log, k, u, g)
        ensures r.tasks[u].AwaitDelete? && r.tasks[u].hash == g
      {
        assert k < |s.log| ==> FoundAt(s.log, k, u, g);
      }
    }
  }

  /** The preimage a deleting call returns is its own hash's, and no other's. */
  lemma DeleteReveals(s: State, t: nat, k: nat, h: string)
    requires LogOk(s.log) && TasksOk(s) && t in s.tasks && s.tasks[t].AwaitDelete?
    ensures RevealAt(ContinueDelete(s, t, s.tasks[t]).log, k, h) <==>
      RevealAt(s.log, k, h) || (k == |s.log| && h == s.tasks[t].hash)
  {
    var task := s.tasks[t];
    var e := Returned(t, task.id, Outcome(true, Some(task.preimage), None));
    assert TaskOk(s.log, t, task);
    RevealSnoc(s.log, e, k, h);
    if k == |s.log| && SettledBy(s.log, task.id, Htlc(h)) {
      SettlementIsUnique(s.log, task.id, Htlc(h), Htlc(task.hash));
    }
  }

  lemma DeleteReturns(s: State, t: nat, k: nat, u: nat)
    requires t in s.tasks && s.tasks[t].AwaitDelete?
    ensures ReturnsAt(ContinueDelete(s, t, s.tasks[t]).log, k, u) <==>
      ReturnsAt(s.log, k, u) || (k == |s.log| && u == t)
  {
  }

  lemma DeleteFinds(s: State, t: nat, k: nat, u: nat, h: string)
    requires t in s.tasks && s.tasks[t].AwaitDelete?
    ensures FoundAt(ContinueDelete(s, t, s.tasks[t]).log, k, u, h) <==> FoundAt(s.log, k, u, h)
  {
  }

  lemma DeleteKeepsCalls(s: State, t: nat)
    requires RevealInv(s) && TasksOk(s) && t in s.tasks && s.tasks[t].AwaitDelete?
    ensures var r := ContinueDelete(s, t, s.tasks[t]); TasksOpen(r) && OldCalls(r.log, r.next) && ReturnOnce(r.log)
  {
    var r := ContinueDelete(s, t, s.tasks[t]);
    assert TaskOpen(s.log, t, s.tasks[t]);
    forall k: nat, u: nat
      ensures ReturnsAt(r.log, k, u) <==> ReturnsAt(s.log, k, u) || (k == |s.log| && u == t)
    {
      DeleteReturns(s, t, k, u);
    }
    forall k: nat, u: nat, h: string
      ensures FoundAt(r.log, k, u, h) <==> FoundAt(s.log, k, u, h)
    {
      DeleteFinds(s, t, k, u, h);
    }
    forall u | u in r.tasks
      ensures TaskOpen(r.log, u, r.tasks[u])
    {
      assert TaskOpen(s.log, u, s.tasks[u]);
    }
  }

  lemma DeleteKeepsInv(s: State, t: nat)
    requires RevealInv(s) && LogOk(s.log) && TasksOk(s) && t in s.tasks && s.tasks[t].AwaitDelete?
    ensures RevealInv(ContinueDelete(s, t, s.tasks[t]))
  {
    var r, task := ContinueDelete(s, t, s.tasks[t]), s.tasks[t];
    DeleteKeepsCalls(s, t);
    assert TaskOk(s.log, t, task) && TaskOpen(s.log, t, task);
    assert task.hash in s.issued;
    forall a: nat, k: nat, u: nat, h: string | FoundAt(r.log, a, u, h) && ReturnsAt(r.log, k, u)
      ensures a < k && RevealAt(r.log, k, h)
    {
      DeleteFinds(s, t, a, u, h);
      DeleteReturns(s, t, k, u);
      DeleteReveals(s, t, k, h);
    }
    forall a: nat, k: nat, u: nat, h: string | FoundAt(r.log, a, u, h) && RevealAt(r.log, k, h)
      ensures a < k
    {
      DeleteFinds(s, t, a, u, h);
      DeleteReveals(s, t, k, h);
    }
    forall k: nat, h: string | RevealAt(r.log, k, h)
      ensures h !in r.preimages && h in r.issued
    {
      DeleteReveals(s, t, k, h);
    }
  }

  // ---- Every other step is mild ----

  /** New events are neither reads, returns nor new hashes; the preimage store and the issued hashes stay. */
  predicate Silent(s: State, r: State) {
    && s.log <= r.log && r.preimages == s.preimages && r.issued == s.issued
    && forall k :: |s.log| <= k < |r.log| ==> !r.log[k].Read? && !r.log[k].Returned? && !r.log[k].Issued?
  }

  lemma SilentIsMild(s: State, r: State)
    requires GoneOk(s) && Silent(s, r) && MildTasks(s, r)
    ensures Mild(s, r)
  {
  }

  lemma WriteIsSilent(s: State, q: Record)
    ensures Silent(s, Write(s, q)) && Write(s, q).tasks == s.tasks && Write(s, q).next == s.next
  {
  }

  lemma SelectionIsSilent(s: State, q: Record, provider: string, u: Updates)
    ensures var r := CommitSelection(s, q, provider, u); Silent(s, r) && r.tasks == s.tasks && r.next == s.next
  {
    var r := SelectProvider(q, provider, u);
    if r.Ok? {
      WriteIsSilent(Log(s, Chosen(q.id, provider)), r.value);
    }
  }

  /** A call that returns no preimage after silent events. */
  lemma ReturnIsMild(s: State, r: State, t: nat, id: string, o: Outcome)
    requires GoneOk(s) && Silent(s, r) && r.next == s.next && r.tasks == s.tasks && o.preimage.None?
    requires t in s.tasks && t < s.next && !s.tasks[t].AwaitDelete?
    ensures Mild(s, Return(r, t, id, o))
  {
    assert Leaves(s, Return(r, t, id, o), t);
  }

  lemma SettleIsMild(ports: Ports, s: State, r: State, t: nat, q: Record, passed: bool)
    requires GoneOk(s) && Silent(s, r) && r.next == s.next && r.tasks == s.tasks
    requires t in s.tasks && t < s.next && !s.tasks[t].AwaitDelete?
    ensures Mild(s, Settle(ports, r, t, q, passed))
  {
    ReturnIsMild(s, r, t, q.id, Outcome(passed, None, None));
  }

  lemma VerdictIsMild(ports: Ports, s: State, t: nat, answers: seq<bool>)
    requires GoneOk(s) && t in s.tasks && t < s.next && s.tasks[t].AwaitVerdict?
    requires |answers| == |PanelIds(s.tasks[t].panel)|
    ensures Mild(s, ContinueVerdict(ports, s, t, s.tasks[t], answers))
  {
    var task := s.tasks[t];
    var passed := Passes(task.panel, answers);
    var final := Finalize(task.q, passed, Attestations(PanelIds(task.panel), answers));
    var logged := Log(s, Verified(t, task.q.id, task.submitter, task.panel, answers));
    WriteIsSilent(logged, final);
    SettleIsMild(ports, s, Write(logged, final), t, final, passed);
  }

  lemma SimpleIsMild(s: State, t: nat, answers: seq<bool>, now: int)
    requires GoneOk(s) && t in s.tasks && s.tasks[t].AwaitSimple? && |answers| == |PanelIds(s.tasks[t].panel)|
    ensures Mild(s, ContinueSimple(s, t, s.tasks[t], answers, now))
  {
    var task := s.tasks[t];
    var final := Finalize(task.q, Passes(task.panel, answers), Attestations(PanelIds(task.panel), answers)).(
      result := Some(task.result), submittedAt := Some(now));
    WriteIsSilent(End(s, t), final);
    SilentIsMild(s, ContinueSimple(s, t, task, answers, now));
  }

  lemma AmountIsMild(s: State, t: nat, valid: bool, sats: Option<int>)
    requires GoneOk(s) && t in s.tasks && s.tasks[t].AwaitAmount?
    ensures Mild(s, ContinueAmount(s, t, s.tasks[t], valid, sats))
  {
    var task := s.tasks[t];
    SelectionIsSilent(End(s, t), task.q, task.provider, Updates(task.token, Some(sats)));
    SilentIsMild(s, ContinueAmount(s, t, task, valid, sats));
  }

  lemma LockIsMild(s: State, t: nat)
    requires GoneOk(s) && t in s.tasks && s.tasks[t].AwaitLock?
    ensures Mild(s, CommitSelection(End(s, t), s.tasks[t].q, s.tasks[t].provider, s.tasks[t].updates))
  {
    var task := s.tasks[t];
    SelectionIsSilent(End(s, t), task.q, task.provider, task.updates);
    SilentIsMild(s, CommitSelection(End(s, t), task.q, task.provider, task.updates));
  }

  lemma MissIsMild(s: State, t: nat)
    requires GoneOk(s) && t in s.tasks && t < s.next && s.tasks[t].AwaitRead? && !Stored(s, s.tasks[t].hash)
    ensures Mild(s, ContinueRead(s, t, s.tasks[t]))
  {
    var r := ContinueRead(s, t, s.tasks[t]);
    assert r.log == s.log + [Read(t, s.tasks[t].hash, false), Returned(t, s.tasks[t].id, Outcome(true, None, None))];
    assert Leaves(s, r, t);
  }

  lemma SignatureIsMild(s: State, t: nat, signatures: Option<seq<string>>)
    requires GoneOk(s) && t in s.tasks && t < s.next && s.tasks[t].AwaitSignature?
    ensures Mild(s, ContinueSignature(s, t, s.tasks[t], signatures))
  {
    ReturnIsMild(s, Log(s, Replied(t, signatures.Some?)), t, s.tasks[t].id, Outcome(true, None, signatures));
  }

  lemma EndIsMild(s: State, t: nat)
    requires GoneOk(s)
    ensures Mild(s, End(s, t)) && Mild(s, s)
  {
    SilentIsMild(s, End(s, t));
    SilentIsMild(s, s);
  }

  lemma ContinueKeepsReveals(ports: Ports, s: State, t: nat, reply: Reply, now: int)
    requires Inv(s) && RevealInv(s) && t in s.tasks
    ensures RevealInv(Continue(ports, s, t, s.tasks[t], reply, now))
  {
    var task, r := s.tasks[t], Continue(ports, s, t, s.tasks[t], reply, now);
    assert t < s.next;
    if reply.Tick? && task.AwaitRead? && Stored(s, task.hash) {
      FindKeepsInv(s, t);
    } else if reply.Tick? && task.AwaitDelete? {
      DeleteKeepsInv(s, t);
    } else {
      ContinueIsMild(ports, s, t, reply, now);
      MildKeepsInv(s, r);
    }
  }

  lemma ContinueIsMild(ports: Ports, s: State, t: nat, reply: Reply, now: int)
    requires GoneOk(s) && t in s.tasks && t < s.next
    requires !(reply.Tick? && s.tasks[t].AwaitRead? && Stored(s, s.tasks[t].hash))
    requires !(reply.Tick? && s.tasks[t].AwaitDelete?)
    ensures Mild(s, Continue(ports, s, t, s.tasks[t], reply, now))
  {
    EndIsMild(s, t);
    if reply.Throws? {
      if s.tasks[t].AwaitSignature? {
        SignatureIsMild(s, t, None);
      }
    } else {
      ReplyIsMild(ports, s, t, reply, now);
    }
  }

  lemma ReplyIsMild(ports: Ports, s: State, t: nat, reply: Reply, now: int)
    requires GoneOk(s) && t in s.tasks && t < s.next && !reply.Throws?
    requires !(reply.Tick? && s.tasks[t].AwaitRead? && Stored(s, s.tasks[t].hash))
    requires !(reply.Tick? && s.tasks[t].AwaitDelete?)
    ensures Mild(s, Continue(ports, s, t, s.tasks[t], reply, now))
  {
    EndIsMild(s, t);
    match s.tasks[t]
    case AwaitAmount(_, _, _) =>
      if reply.Amount? {
        AmountIsMild(s, t, reply.valid, reply.sats);
      }
    case AwaitLock(_, _, _) => LockIsMild(s, t);
    case AwaitSimple(_, _, panel) =>
      if reply.Answers? && |reply.answers| == |PanelIds(panel)| {
        SimpleIsMild(s, t, reply.answers, now);
      }
    case AwaitVerdict(_, _, panel) =>
      if reply.Answers? && |reply.answers| == |PanelIds(panel)| {
        VerdictIsMild(ports, s, t, reply.answers);
      }
    case AwaitRead(_, _) =>
      if reply.Tick? {
        MissIsMild(s, t);
      }
    case AwaitDelete(_, _, _) =>
    case AwaitSignature(_, _) =>
      if reply.Signatures? {
        SignatureIsMild(s, t, reply.signatures);
      }
  }

  lemma SelectIsMild(ports: Ports, s: State, q: Record, provider: string, token: Option<string>)
    requires GoneOk(s) && TasksOk(s)
    ensures Mild(s, BeginSelect(ports, s, q, provider, token))
  {
    EndIsMild(s, 0);
    SpawnIsMild(s, AwaitAmount(q, provider, token));
    SpawnIsMild(s, AwaitLock(q, provider, Updates(token, None)));
    SelectionIsMild(s, q, provider, Updates(token, None));
  }

  lemma SpawnIsMild(s: State, task: Task)
    requires GoneOk(s) && TasksOk(s) && !task.AwaitDelete?
    ensures Mild(s, Spawn(s, task))
  {
    SilentIsMild(s, Spawn(s, task));
  }

  lemma SelectionIsMild(s: State, q: Record, provider: string, u: Updates)
    requires GoneOk(s)
    ensures Mild(s, CommitSelection(s, q, provider, u))
  {
    SelectionIsSilent(s, q, provider, u);
    SilentIsMild(s, CommitSelection(s, q, provider, u));
  }

  lemma BeginSimpleIsMild(s: State, q: Record, result: string, oracle: Option<string>, now: int)
    requires GoneOk(s) && TasksOk(s)
    ensures Mild(s, BeginSimple(s, q, result, oracle, now))
  {
    WriteIsSilent(s, q.(status := Expired, payment := Cancelled));
    SilentIsMild(s, BeginSimple(s, q, result, oracle, now));
  }

  lemma RefusalIsMild(s: State, id: string)
    requires GoneOk(s) && TasksOk(s)
    ensures Mild(s, Log(s.(next := s.next + 1), Returned(s.next, id, Outcome(false, None, None))))
  {
    var r := Log(s.(next := s.next + 1), Returned(s.next, id, Outcome(false, None, None)));
    assert Leaves(s, r, s.next);
  }

  lemma BeginEscrowIsMild(s: State, q: Record, result: string, provider: string, oracle: Option<string>, now: int)
    requires GoneOk(s) && TasksOk(s)
    ensures Mild(s, BeginEscrow(s, q, result, provider, oracle, now))
  {
    var r := RecordResult(q, result, provider, now);
    if r.Err? {
      RefusalIsMild(s, q.id);
    } else {
      WriteIsSilent(s, r.value);
      SilentIsMild(s, BeginEscrow(s, q, result, provider, oracle, now));
    }
  }

  lemma StartIsMild(ports: Ports, s: State, a: Action)
    requires GoneOk(s) && TasksOk(s) && Starts(a)
    ensures Mild(s, Step(ports, s, a))
  {
    EndIsMild(s, 0);
    match a
    case StartSelect(id, provider, token) =>
      if id in s.store {
        SelectIsMild(ports, s, s.store[id], provider, token);
      }
    case StartSimple(id, result, oracle, now) =>
      if id in s.store {
        BeginSimpleIsMild(s, s.store[id], result, oracle, now);
      }
    case StartEscrow(id, result, provider, oracle, now) =>
      if id in s.store {
        BeginEscrowIsMild(s, s.store[id], result, provider, oracle, now);
      } else {
        RefusalIsMild(s, id);
      }
  }

  lemma UpdateIsMild(s: State, a: Action)
    requires GoneOk(s) && Synchronous(a)
    ensures Mild(s, Update(s, a))
  {
    EndIsMild(s, 0);
    if a.id in s.store && Move(s.store[a.id], a).Ok? {
      WriteIsSilent(s, Move(s.store[a.id], a).value);
      SilentIsMild(s, Update(s, a));
    }
  }

  lemma OtherIsMild(ports: Ports, s: State, a: Action)
    requires GoneOk(s) && !a.Resume? && !Starts(a) && !Synchronous(a)
    ensures Mild(s, Step(ports, s, a))
  {
    if !a.DoIssue? {
      SilentIsMild(s, Step(ports, s, a));
    }
  }

  lemma StepKeepsReveals(ports: Ports, s: State, a: Action)
    requires Inv(s) && RevealInv(s)
    ensures RevealInv(Step(ports, s, a))
  {
    if a.Resume? {
      if a.task in s.tasks {
        ContinueKeepsReveals(ports, s, a.task, a.reply, a.now);
      }
    } else {
      if Starts(a) {
        StartIsMild(ports, s, a);
      } else if Synchronous(a) {
        UpdateIsMild(s, a);
      } else {
        OtherIsMild(ports, s, a);
      }
      MildKeepsInv(s, Step(ports, s, a));
    }
  }

  lemma {:induction false} EveryRunKeepsReveals(ports: Ports, actions: seq<Action>)
    ensures RevealInv(Exec(ports, Init(), actions))
  {
    if actions != [] {
      var front := actions[..|actions| - 1];
      EveryRunKeepsReveals(ports, front);
      EveryRunKeepsInv(ports, front);
      StepKeepsReveals(ports, Exec(ports, Init(), front), actions[|actions| - 1]);
    }
  }

  // ---- Main result ----

  /** A returned preimage was found by that call before. */
  lemma RevealWasFound(ports: Ports, actions: seq<Action>, k: nat, hash: string) returns (a: nat)
    requires RevealAt(Exec(ports, Init(), actions).log, k, hash)
    ensures var log := Exec(ports, Init(), actions).log; a < k && FoundAt(log, a, log[k].task, hash)
  {
    var log := Exec(ports, Init(), actions).log;
    ReleaseSafety(ports, actions, k);
    QueryArtifacts.SuccessCarriesOneIff(ports, actions, k);
    EveryRunKeepsInv(ports, actions);
    var t, id := log[k].task, log[k].id;
    var h: string :| h != "" && SettledBy(log[..k], id, Htlc(h)) && Read(t, h, true) in log[..k];
    PrefixIsOk(log, k);
    SettlementIsUnique(log[..k], id, Htlc(h), Htlc(hash));
    a :| 0 <= a < k && log[..k][a] == Read(t, h, true);
  }

  lemma PrefixIsOk(log: seq<Event>, k: nat)
    requires LogOk(log) && k <= |log|
    ensures LogOk(log[..k])
  {
    forall i: nat | i < k
      ensures JustifiedAt(log[..k], i)
    {
      assert JustifiedAt(log, i);
      assert log[..k][..i] == log[..i];
    }
  }

  /**
   Two calls overlap on the hash: the first found its preimage at a and returned at i, the second found it at b in
   between and returned at j.
   */
  predicate Overlap(log: seq<Event>, hash: string, a: nat, b: nat, i: nat, j: nat) {
    && i < |log| && j < |log| && log[i].Returned? && log[j].Returned? && log[i].task != log[j].task
    && a < b < i && FoundAt(log, a, log[i].task, hash) && FoundAt(log, b, log[j].task, hash)
  }

  /**
   In every interleaved run, the preimage of a hash is returned twice if and only if some call found it while another
   call that had found it had not returned yet, and both returned.
   */
  lemma ReturnedTwiceIffOverlap(ports: Ports, actions: seq<Action>, hash: string)
    ensures var log := Exec(ports, Init(), actions).log;
      (exists i: nat, j: nat :: i < j && RevealAt(log, i, hash) && RevealAt(log, j, hash)) <==>
      (exists a: nat, b: nat, i: nat, j: nat :: Overlap(log, hash, a, b, i, j))
  {
    var log := Exec(ports, Init(), actions).log;
    EveryRunKeepsReveals(ports, actions);
    if i: nat, j: nat :| i < j && RevealAt(log, i, hash) && RevealAt(log, j, hash) {
      TwoReturnsOverlap(ports, actions, hash, i, j);
    }
    if a: nat, b: nat, i: nat, j: nat :| Overlap(log, hash, a, b, i, j) {
      assert ReturnsAt(log, i, log[i].task) && ReturnsAt(log, j, log[j].task);
      assert RevealAt(log, i, hash) && RevealAt(log, j, hash);
      assert i != j;
    }
  }

  lemma TwoReturnsOverlap(ports: Ports, actions: seq<Action>, hash: string, i: nat, j: nat)
    requires var log := Exec(ports, Init(), actions).log; i < j && RevealAt(log, i, hash) && RevealAt(log, j, hash)
    ensures var log := Exec(ports, Init(), actions).log;
      exists a: nat, b: nat, i: nat, j: nat :: Overlap(log, hash, a, b, i, j)
  {
    var log := Exec(ports, Init(), actions).log;
    EveryRunKeepsReveals(ports, actions);
    var a := RevealWasFound(ports, actions, i, hash);
    var b := RevealWasFound(ports, actions, j, hash);
    OverlapOf(log, hash, a, b, i, j);
  }

  lemma OverlapOf(log: seq<Event>, hash: string, a: nat, b: nat, i: nat, j: nat)
    requires ReturnOnce(log) && NotFoundAgain(log) && i < j && RevealAt(log, i, hash) && RevealAt(log, j, hash)
    requires a < i && FoundAt(log, a, log[i].task, hash) && b < j && FoundAt(log, b, log[j].task, hash)
    ensures Overlap(log, hash, a, b, i, j) || Overlap(log, hash, b, a, j, i)
  {
    assert ReturnsAt(log, i, log[i].task) && ReturnsAt(log, j, log[j].task);
    assert b < i;
  }
}
