/** Runs from the empty service that show where natural expectations fail. */
module QueryRuns {
  import opened Wrappers
  import opened Query
  import opened Quorum
  import opened QueryMachine
  import opened QuerySafety
  import opened QueryFinality

  lemma ExecSnoc(ports: Ports, s: State, actions: seq<Action>, a: Action)
    ensures Exec(ports, s, actions + [a]) == Step(ports, Exec(ports, s, actions), a)
  {
    assert (actions + [a])[..|actions|] == actions;
  }

  lemma {:induction false} ExecConcat(ports: Ports, s: State, first: seq<Action>, second: seq<Action>)
    ensures Exec(ports, s, first + second) == Exec(ports, Exec(ports, s, first), second)
  {
    if second == [] {
      assert first + second == first;
    } else {
      var n := |second| - 1;
      ExecConcat(ports, s, first, second[..n]);
      ExecSnoc(ports, s, first + second[..n], second[n]);
      assert first + second[..n] + [second[n]] == first + second;
    }
  }

  lemma ExecThree(ports: Ports, s: State, a: Action, b: Action, c: Action)
    ensures Exec(ports, s, [a, b, c]) == Step(ports, Step(ports, Step(ports, s, a), b), c)
  {
    ExecTwo(ports, s, a, b);
    ExecSnoc(ports, s, [a, b], c);
    assert [a, b] + [c] == [a, b, c];
  }

  lemma ExecFour(ports: Ports, s: State, a: Action, b: Action, c: Action, d: Action)
    ensures Exec(ports, s, [a, b, c, d]) == Step(ports, Step(ports, Step(ports, Step(ports, s, a), b), c), d)
  {
    ExecThree(ports, s, a, b, c);
    ExecSnoc(ports, s, [a, b, c], d);
    assert [a, b, c] + [d] == [a, b, c, d];
  }

  // ---- A cancelled query is selected ----

  lemma SelectSuspends(ports: Ports, s: State, q: Record, provider: string, token: Option<string>)
    requires ports.escrow && q.escrow.Some? && q.status.AwaitingOffers?
    requires Present(EscrowRef(q.escrow.value, token)) && (NonZero(q.lockSats) || HasHash(q.escrow.value))
    ensures var r := BeginSelect(ports, s, q, provider, token);
      r.store == s.store && s.next in r.tasks && Selecting(r.tasks[s.next], q.id)
  {
  }

  lemma CreateStores(ports: Ports, s: State, id: string, o: Options, now: int)
    requires id !in s.used && Create(id, o, now).Ok?
    ensures var q := Create(id, o, now).value; var r := Step(ports, s, DoCreate(id, o, now));
      r == s.(store := s.store[id := q], used := s.used + {id}, log := s.log + [Created(q)])
  {
  }

  lemma CancelStores(ports: Ports, s: State, id: string)
    requires id in s.store && s.store[id].id == id && Open(s.store[id].status)
    ensures var r := Step(ports, s, DoCancel(id));
      && r.store == s.store[id := s.store[id].(status := Rejected, payment := Cancelled)] && r.tasks == s.tasks
  {
    WriteTasks(s, Cancel(s.store[id]).value);
  }

  /** Any query whose selection has something to check shows the failure: cancelled while suspended, it is selected. */
  lemma CancelledQueryIsSelected(
    ports: Ports, id: string, o: Options, now: int, provider: string, token: Option<string>)
      returns (more: seq<Action>)
    requires ports.escrow && Create(id, o, now).Ok? && o.escrow.Some?
    requires Present(EscrowRef(o.escrow.value, token)) && (NonZero(o.lockSats) || HasHash(o.escrow.value))
    ensures var s := Exec(ports, Init(), [DoCreate(id, o, now), StartSelect(id, provider, token), DoCancel(id)]);
      && id in s.store && s.store[id].status.Rejected?
      && id in Exec(ports, s, more).store && Exec(ports, s, more).store[id].status.ProviderSelected?
  {
    var create, select, cancel := DoCreate(id, o, now), StartSelect(id, provider, token), DoCancel(id);
    ExecThree(ports, Init(), create, select, cancel);
    EveryRunKeepsInv(ports, [create, select, cancel]);
    CreateStores(ports, Init(), id, o, now);
    var s1 := Step(ports, Init(), create);
    SelectSuspends(ports, s1, s1.store[id], provider, token);
    CancelStores(ports, Step(ports, s1, select), id);
    more := SelectionResurrects(ports, Step(ports, Step(ports, s1, select), cancel), s1.next, id);
  }

  // ---- A cancelled query is released ----

  /** One acceptable oracle, and no quorum. */
  predicate JudgedBy(o: Options, oracle: string) { o.oracleIds == Some([oracle]) && o.quorum.None? }

  lemma PanelIsOne(s: State, q: Record, oracle: string)
    requires oracle in s.order && q.oracleIds == Some([oracle]) && q.quorum.None?
    ensures Choose(s.order, q.oracleIds, q.quorum, None) == One(oracle)
  {
  }

  lemma SimpleSuspends(ports: Ports, s: State, id: string, result: string, now: int, oracle: string)
    requires id in s.store && s.store[id].status.Pending? && s.store[id].expiresAt >= now
    requires oracle in s.order && s.store[id].oracleIds == Some([oracle]) && s.store[id].quorum.None?
    ensures Step(ports, s, StartSimple(id, result, None, now))
         == Spawn(s, AwaitSimple(s.store[id], result, One(oracle)))
  {
    PanelIsOne(s, s.store[id], oracle);
  }

  lemma SimplePasses(ports: Ports, s: State, t: nat)
    requires t in s.tasks && s.tasks[t].AwaitSimple? && s.tasks[t].panel.One?
    ensures var r := Step(ports, s, Resume(t, Answers([true]), 0)); var id := s.tasks[t].q.id;
      id in r.store && r.store[id].status.Approved? && r.store[id].payment.Released?
  {
    assert Step(ports, s, Resume(t, Answers([true]), 0)) == ContinueSimple(s, t, s.tasks[t], [true], 0);
  }

  /**
   A query without escrow, cancelled while its result is being judged, is approved and released by a passing verdict.
   */
  lemma CancelledQueryIsReleased(ports: Ports, id: string, o: Options, now: int, oracle: string, result: string)
    requires Create(id, o, now).Ok? && o.escrow.None? && o.ttl >= 0 && JudgedBy(o, oracle)
    ensures var s := Exec(ports, Init(), [DoRegister(oracle), DoCreate(id, o, now),
                                          StartSimple(id, result, None, now), DoCancel(id)]);
      var r := Exec(ports, s, [Resume(0, Answers([true]), 0)]);
      && id in s.store && s.store[id].status.Rejected? && s.store[id].payment.Cancelled?
      && id in r.store && r.store[id].status.Approved? && r.store[id].payment.Released?
  {
    var s0 := Step(ports, Init(), DoRegister(oracle));
    ExecFour(ports, Init(), DoRegister(oracle), DoCreate(id, o, now), StartSimple(id, result, None, now), DoCancel(id));
    CreateStores(ports, s0, id, o, now);
    var s1 := Step(ports, s0, DoCreate(id, o, now));
    SimpleSuspends(ports, s1, id, result, now, oracle);
    var s2 := Spawn(s1, AwaitSimple(s1.store[id], result, One(oracle)));
    CancelStores(ports, s2, id);
    var s3 := Step(ports, s2, DoCancel(id));
    ExecOne(ports, s3, Resume(0, Answers([true]), 0));
    SimplePasses(ports, s3, 0);
  }

  // ---- An escrow query up to its verdict ----

  /** An escrow query with nothing to check at its selection, judged by one oracle. */
  predicate Plain(o: Options, oracle: string) {
    JudgedBy(o, oracle) && o.escrow.Some? && o.escrow.value.reference.None? && o.escrow.value.token.None?
  }

  function VerdictScript(id: string, o: Options, now: int, provider: string, result: string): seq<Action> {
    [DoCreate(id, o, now), StartSelect(id, provider, None), DoBegin(id), StartEscrow(id, result, provider, None, now)]
  }

  /** The submission's record while it is judged. */
  function Judged(id: string, o: Options, now: int, provider: string, result: string): Record
    requires Create(id, o, now).Ok? && o.escrow.Some?
  {
    Create(id, o, now).value.(status := Verifying, result := Some(result), submittedAt := Some(now),
                              escrow := Some(o.escrow.value.(provider := Some(provider))))
  }

  /** The query is stored under judgement, its submission is suspended, and everything else is as before. */
  predicate AtVerdict(s: State, r: State, v: Record, provider: string, oracle: string) {
    && r.store == s.store[v.id := v]
    && r.tasks == s.tasks[s.next := AwaitVerdict(v, provider, One(oracle))] && r.next == s.next + 1
    && r.preimages == s.preimages && r.order == s.order && r.used == s.used + {v.id}
    && r.issued == s.issued && s.log <= r.log
  }

  lemma PlainSelects(ports: Ports, s: State, id: string, provider: string)
    requires id in s.store && s.store[id].id == id && s.store[id].status.AwaitingOffers? && s.store[id].escrow.Some?
    requires s.store[id].escrow.value.reference.None? && s.store[id].escrow.value.token.None?
    ensures var q := s.store[id]; var r := Step(ports, s, StartSelect(id, provider, None));
      var q1 := q.(status := ProviderSelected, escrow := Some(q.escrow.value.(provider := Some(provider))));
      && r.store == s.store[id := q1] && r.tasks == s.tasks && r.next == s.next && r.preimages == s.preimages
      && r.order == s.order && r.used == s.used && r.issued == s.issued && s.log <= r.log
  {
    var q := s.store[id];
    var u := Updates(None, None);
    assert BeginSelect(ports, s, q, provider, None) == CommitSelection(s, q, provider, u);
    SelectionTasks(s, q, provider, u);
  }

  lemma Begins(ports: Ports, s: State, id: string)
    requires id in s.store && s.store[id].id == id && s.store[id].status.ProviderSelected? && s.store[id].escrow.Some?
    ensures var r := Step(ports, s, DoBegin(id));
      && r.store == s.store[id := s.store[id].(status := Processing)] && r.tasks == s.tasks && r.next == s.next
      && r.preimages == s.preimages && r.order == s.order && r.used == s.used && r.issued == s.issued && s.log <= r.log
  {
  }

  lemma Submits(ports: Ports, s: State, id: string, result: string, provider: string, now: int, oracle: string)
    requires id in s.store && s.store[id].id == id && s.store[id].status.Processing? && s.store[id].escrow.Some?
    requires s.store[id].escrow.value.provider == Some(provider)
    requires oracle in s.order && s.store[id].oracleIds == Some([oracle]) && s.store[id].quorum.None?
    ensures var v := s.store[id].(status := Verifying, result := Some(result), submittedAt := Some(now));
      AtVerdict(s, Step(ports, s, StartEscrow(id, result, provider, None,
        now)).(used := s.used + {id}), v, provider, oracle)
      && Step(ports, s, StartEscrow(id, result, provider, None, now)).used == s.used
  {
    PanelIsOne(s, s.store[id], oracle);
  }

  /** From any state that knows the oracle, a new plain escrow query can be brought to its verdict. */
  lemma ReachesVerdict(
    ports: Ports, s: State, id: string, o: Options, now: int, provider: string, result: string, oracle: string)
    requires id !in s.used && oracle in s.order && Create(id, o, now).Ok? && Plain(o, oracle)
    ensures AtVerdict(s, Exec(ports, s, VerdictScript(id, o, now, provider, result)),
        Judged(id, o, now, provider, result), provider, oracle)
  {
    ExecFour(ports, s, DoCreate(id, o, now), StartSelect(id, provider, None), DoBegin(id),
      StartEscrow(id, result, provider, None, now));
    CreateStores(ports, s, id, o, now);
    var s1 := Step(ports, s, DoCreate(id, o, now));
    PlainSelects(ports, s1, id, provider);
    var s2 := Step(ports, s1, StartSelect(id, provider, None));
    Begins(ports, s2, id);
    var s3 := Step(ports, s2, DoBegin(id));
    Submits(ports, s3, id, result, provider, now, oracle);
    var s4 := Step(ports, s3, StartEscrow(id, result, provider, None, now));
    assert s4.store == s.store[id := Judged(id, o, now, provider, result)];
  }

  function FirstScript(
    id: string, o: Options, now: int, provider: string, result: string, oracle: string): seq<Action>
  {
    [DoRegister(oracle)] + VerdictScript(id, o, now, provider, result)
  }

  /** From the empty service, the first submission is suspended as call 0 on the only stored query. */
  lemma FirstReachesVerdict(
    ports: Ports, id: string, o: Options, now: int, provider: string, result: string, oracle: string)
    requires Create(id, o, now).Ok? && Plain(o, oracle)
    ensures var r := Exec(ports, Init(), FirstScript(id, o, now, provider, result, oracle));
      var v := Judged(id, o, now, provider, result);
      r.tasks == map[0 := AwaitVerdict(v, provider, One(oracle))] && r.store == map[id := v]
  {
    var s0 := Step(ports, Init(), DoRegister(oracle));
    ExecOne(ports, Init(), DoRegister(oracle));
    ExecConcat(ports, Init(), [DoRegister(oracle)], VerdictScript(id, o, now, provider, result));
    ReachesVerdict(ports, s0, id, o, now, provider, result, oracle);
  }

  // ---- An expired query is released ----

  lemma ExpireStores(ports: Ports, s: State, id: string, now: int)
    requires id in s.store && s.store[id].id == id && s.store[id].status.Verifying? && s.store[id].expiresAt < now
    ensures var r := Step(ports, s, DoExpire(id, now));
      r.store == s.store[id := s.store[id].(status := Expired, payment := Cancelled)] && r.tasks == s.tasks
  {
    WriteTasks(s, Expire(s.store[id], now).value);
  }

  lemma VerdictPasses(ports: Ports, s: State, t: nat)
    requires t in s.tasks && s.tasks[t].AwaitVerdict? && s.tasks[t].panel.One?
    ensures var r := Step(ports, s, Resume(t, Answers([true]), 0)); var id := s.tasks[t].q.id;
      id in r.store && r.store[id].status.Approved? && r.store[id].payment.Released?
  {
    var task := s.tasks[t];
    var final := Finalize(task.q, true, Attestations(PanelIds(task.panel), [true]));
    assert Step(ports, s, Resume(t, Answers([true]), 0)) == ContinueVerdict(ports, s, t, task, [true]);
    SettleWritesNothing(ports, Write(Log(s,
      Verified(t, task.q.id, task.submitter, task.panel, [true])), final), t, final, true);
  }

  /** A query that expires while its result is being judged is approved and released by a passing verdict. */
  lemma ExpiredQueryIsReleased(
    ports: Ports, id: string, o: Options, now: int, provider: string, result: string, oracle: string, later: int)
    requires Create(id, o, now).Ok? && Plain(o, oracle) && later > now + o.ttl
    ensures var s := Exec(ports, Init(), FirstScript(id, o, now, provider, result, oracle) + [DoExpire(id, later)]);
      var r := Exec(ports, s, [Resume(0, Answers([true]), 0)]);
      && id in s.store && s.store[id].status.Expired? && s.store[id].payment.Cancelled?
      && id in r.store && r.store[id].status.Approved? && r.store[id].payment.Released?
  {
    var script := FirstScript(id, o, now, provider, result, oracle);
    FirstReachesVerdict(ports, id, o, now, provider, result, oracle);
    ExecSnoc(ports, Init(), script, DoExpire(id, later));
    var s1 := Exec(ports, Init(), script);
    ExpireStores(ports, s1, id, later);
    var s2 := Step(ports, s1, DoExpire(id, later));
    ExecOne(ports, s2, Resume(0, Answers([true]), 0));
    VerdictPasses(ports, s2, 0);
  }

  // ---- A success without any settlement ----

  lemma VerdictReturns(ports: Ports, s: State, t: nat)
    requires t in s.tasks && s.tasks[t].AwaitVerdict? && s.tasks[t].panel.One? && s.tasks[t].q.escrow.Some?
    ensures var r := Step(ports, s, Resume(t, Answers([true]), 0)); var e := s.tasks[t].q.escrow.value;
      && (HasHash(e) && ports.preimages ==>
            && r.tasks == s.tasks[t := AwaitRead(s.tasks[t].q.id, e.settlement.hash)]
            && r.preimages == s.preimages && r.order == s.order && r.next == s.next && r.used == s.used)
      && (!(HasHash(e) && ports.preimages) && !(e.settlement.Frost? && ports.frost) ==>
            r.log != [] && r.log[|r.log| - 1] == Returned(t, s.tasks[t].q.id, Outcome(true, None, None)))
  {
    var task := s.tasks[t];
    var final := Finalize(task.q, true, Attestations(PanelIds(task.panel), [true]));
    assert Step(ports, s, Resume(t, Answers([true]), 0)) == ContinueVerdict(ports, s, t, task, [true]);
    WriteTasks(Log(s, Verified(t, task.q.id, task.submitter, task.panel, [true])), final);
  }

  /**
   Without the port for its settlement, or without a hash, a passing submission returns neither preimage nor signatures.
   */
  lemma SuccessWithoutSettlement(
    ports: Ports, id: string, o: Options, now: int, provider: string, result: string, oracle: string)
    requires Create(id, o, now).Ok? && Plain(o, oracle)
    requires !(HasHash(o.escrow.value) && ports.preimages) && !(o.escrow.value.settlement.Frost? && ports.frost)
    ensures var script := FirstScript(id, o, now, provider, result, oracle) + [Resume(0, Answers([true]), 0)];
      var log := Exec(ports, Init(), script).log;
      log != [] && log[|log| - 1] == Returned(0, id, Outcome(true, None, None))
  {
    var script := FirstScript(id, o, now, provider, result, oracle);
    FirstReachesVerdict(ports, id, o, now, provider, result, oracle);
    ExecSnoc(ports, Init(), script, Resume(0, Answers([true]), 0));
    VerdictReturns(ports, Exec(ports, Init(), script), 0);
  }

  // ---- Overlapping reads of one preimage ----

  lemma ReadStep(ports: Ports, s: State, t: nat, id: string, hash: string)
    requires t in s.tasks && s.tasks[t] == AwaitRead(id, hash) && Stored(s, hash)
    ensures Step(ports, s, Resume(t, Tick, 0))
         == s.(tasks := s.tasks[t := AwaitDelete(id, hash, s.preimages[hash])], log := s.log + [Read(t, hash, true)])
  {
  }

  lemma DeleteStep(ports: Ports, s: State, t: nat, id: string, hash: string, preimage: string)
    requires t in s.tasks && s.tasks[t] == AwaitDelete(id, hash, preimage)
    ensures var r := Step(ports, s, Resume(t, Tick, 0));
      r.tasks == s.tasks - {t} && r.log == s.log + [Returned(t, id, Outcome(true, Some(preimage), None))]
  {
  }

  /**
   Two submissions suspended before reading the same hash both return its preimage, if both read before either deletes.
   */
  lemma BothReadBothReturn(ports: Ports, s: State, t: nat, u: nat, id: string, other: string, hash: string)
    requires t != u && t in s.tasks && u in s.tasks
    requires s.tasks[t] == AwaitRead(id, hash) && s.tasks[u] == AwaitRead(other, hash) && Stored(s, hash)
    ensures var log := Exec(ports, s, [Resume(t, Tick, 0), Resume(u, Tick, 0),
                                       Resume(t, Tick, 0), Resume(u, Tick, 0)]).log;
      var o := Outcome(true, Some(s.preimages[hash]), None);
      Returned(t, id, o) in log && Returned(u, other, o) in log
  {
    var a, b, p := Resume(t, Tick, 0), Resume(u, Tick, 0), s.preimages[hash];
    ExecFour(ports, s, a, b, a, b);
    ReadStep(ports, s, t, id, hash);
    var one := Step(ports, s, a);
    ReadStep(ports, one, u, other, hash);
    var two := Step(ports, one, b);
    DeleteStep(ports, two, t, id, hash, p);
    var three := Step(ports, two, a);
    DeleteStep(ports, three, u, other, hash, p);
    var o := Outcome(true, Some(p), None);
    assert three.log[|two.log|] == Returned(t, id, o);
    assert Step(ports, three, b).log[|three.log|] == Returned(u, other, o);
  }

  function ReadScript(id: string, o: Options, now: int, provider: string, result: string, t: nat): seq<Action> {
    VerdictScript(id, o, now, provider, result) + [Resume(t, Answers([true]), 0)]
  }

  /** The submission is suspended before its read; other suspended calls, preimages and oracles are as before. */
  lemma ReachesRead(
    ports: Ports, s: State, id: string, o: Options, now: int, provider: string, result: string, oracle: string)
    requires id !in s.used && oracle in s.order && Create(id, o, now).Ok? && Plain(o, oracle)
    requires HasHash(o.escrow.value) && ports.preimages
    ensures var r := Exec(ports, s, ReadScript(id, o, now, provider, result, s.next));
      && r.tasks == s.tasks[s.next := AwaitRead(id, o.escrow.value.settlement.hash)] && r.next == s.next + 1
      && r.preimages == s.preimages && r.order == s.order && r.used == s.used + {id}
  {
    ReachesVerdict(ports, s, id, o, now, provider, result, oracle);
    var v := Exec(ports, s, VerdictScript(id, o, now, provider, result));
    ExecSnoc(ports, s, VerdictScript(id, o, now, provider, result), Resume(s.next, Answers([true]), 0));
    VerdictReturns(ports, v, s.next);
    var e := Judged(id, o, now, provider, result);
    var read := AwaitRead(id, o.escrow.value.settlement.hash);
    assert s.tasks[s.next := AwaitVerdict(e, provider, One(oracle))][s.next := read] == s.tasks[s.next := read];
  }

  /** Both queries were created for the same hash; every step is the service's own. */
  function OverlapScript(
    id: string, other: string, o: Options, now: int, provider: string, result: string, oracle: string,
    hash: string, preimage: string):
      seq<Action> {
    [DoRegister(oracle), DoIssue(hash, preimage)] + ReadScript(id, o, now, provider, result, 0)
    + ReadScript(other, o, now, provider, result, 1)
    + [Resume(0, Tick, 0), Resume(1, Tick, 0), Resume(0, Tick, 0), Resume(1, Tick, 0)]
  }

  /** From the empty service, two queries created with one hash whose submissions overlap both return its preimage. */
  lemma OverlappingReadsReturnTwice(
    ports: Ports, id: string, other: string, o: Options, now: int, provider: string, result: string, oracle: string,
    hash: string, preimage: string)
    requires id != other && Create(id, o, now).Ok? && Create(other, o, now).Ok? && Plain(o, oracle) && ports.preimages
    requires o.escrow.value.settlement == Htlc(hash) && hash != "" && preimage != ""
    ensures var script := OverlapScript(id, other, o, now, provider, result, oracle, hash, preimage);
      var log := Exec(ports, Init(), script).log;
      var out := Outcome(true, Some(preimage), None);
      Returned(0, id, out) in log && Returned(1, other, out) in log
  {
    var start := [DoRegister(oracle), DoIssue(hash, preimage)];
    var one, two := ReadScript(id, o, now, provider, result, 0), ReadScript(other, o, now, provider, result, 1);
    var last := [Resume(0, Tick, 0), Resume(1, Tick, 0), Resume(0, Tick, 0), Resume(1, Tick, 0)];
    ExecTwo(ports, Init(), start[0], start[1]);
    var s0 := Exec(ports, Init(), start);
    ExecConcat(ports, Init(), start, one);
    ReachesRead(ports, s0, id, o, now, provider, result, oracle);
    var s1 := Exec(ports, s0, one);
    ExecConcat(ports, Init(), start + one, two);
    ReachesRead(ports, s1, other, o, now, provider, result, oracle);
    var s2 := Exec(ports, s1, two);
    ExecConcat(ports, Init(), start + one + two, last);
    BothReadBothReturn(ports, s2, 0, 1, id, other, hash);
  }
}
