/** The query service as an object, one call at a time, proved against the machine of suspended calls. */
module QueryService {
  import opened Wrappers
  import opened Query
  import opened Quorum
  import opened QueryMachine
  import opened QuerySafety
  import opened QueryFinality
  import opened QuerySequential

  function Swept(q: Record, now: int): Record {
    if Expirable(q.status) && q.expiresAt < now then q.(status := Expired, payment := Cancelled) else q
  }

  function Due(store: map<string, Record>, now: int): set<string> {
    set id | id in store && Expirable(store[id].status) && store[id].expiresAt < now
  }

  ghost predicate SweptSoFar(values: map<string, Record>, store: map<string, Record>, left: set<string>, now: int) {
    && store.Keys == values.Keys
    && (forall id :: id in values && id in left ==> store[id] == values[id])
    && (forall id :: id in values && id !in left ==> store[id] == Swept(values[id], now))
    && (forall id :: id in values ==> values[id].id == id)
  }

  lemma SweptStep(values: map<string, Record>, store: map<string, Record>, left: set<string>, id: string, now: int)
    requires SweptSoFar(values, store, left, now) && id in left && id in values
    ensures SweptSoFar(values, store[id := Swept(values[id], now)], left - {id}, now)
    ensures id in store && store[id] == values[id] && values[id].id == id
  {
  }

  /** How many due records lie outside `left`. */
  ghost predicate Counted(values: map<string, Record>, left: set<string>, now: int, count: nat) {
    count == |Due(values, now) - left|
  }

  lemma CountStep(values: map<string, Record>, left: set<string>, id: string, now: int, count: nat)
    requires id in left && id in values && Counted(values, left, now, count)
    ensures Counted(values, left - {id}, now,
                    if Expirable(values[id].status) && values[id].expiresAt < now then count + 1 else count)
  {
    var due := Due(values, now);
    assert due - (left - {id}) == if id in due then (due - left) + {id} else due - left;
  }

  /** What a purge leaves: all but the expired records outside `left`. */
  ghost predicate PurgedSoFar(values: map<string, Record>, store: map<string, Record>, left: set<string>) {
    && (forall id :: id in store <==> id in values && (id in left || !values[id].status.Expired?))
    && (forall id :: id in store ==> store[id] == values[id])
    && (forall id :: id in values ==> values[id].id == id)
  }

  /** The expired records outside `left`, each once. */
  ghost predicate ListsExpired(values: map<string, Record>, expired: seq<Record>, left: set<string>) {
    && (forall id :: id in values && id !in left && values[id].status.Expired? ==> values[id] in expired)
    && (forall i :: 0 <= i < |expired| ==>
          && expired[i].id in values && expired[i].id !in left
          && expired[i].status.Expired? && values[expired[i].id] == expired[i])
    && (forall i, j :: 0 <= i < j < |expired| ==> expired[i].id != expired[j].id)
  }

  lemma PurgedStep(values: map<string, Record>, store: map<string, Record>, left: set<string>, id: string)
    requires PurgedSoFar(values, store, left) && id in left && id in values
    ensures PurgedSoFar(values, if values[id].status.Expired? then store - {id} else store, left - {id})
    ensures id in store && store[id] == values[id] && values[id].id == id
  {
  }

  lemma ListsSkip(values: map<string, Record>, expired: seq<Record>, left: set<string>, id: string)
    requires ListsExpired(values, expired, left) && id in values && !values[id].status.Expired?
    ensures ListsExpired(values, expired, left - {id})
  {
  }

  lemma ListsStep(values: map<string, Record>, expired: seq<Record>, left: set<string>, id: string)
    requires ListsExpired(values, expired, left) && id in left && id in values
    requires values[id].status.Expired? && values[id].id == id
    ensures ListsExpired(values, expired + [values[id]], left - {id})
  {
    forall x | x in values && x !in left - {id} && values[x].status.Expired?
      ensures values[x] in expired + [values[id]]
    {
    }
  }

  lemma Extend(ports: Ports, history: seq<Action>, a: Action)
    requires Sequential(ports, history) && Calm(Exec(ports, Init(), history), a)
    ensures Sequential(ports, history + [a])
    ensures Exec(ports, Init(), history + [a]) == Step(ports, Exec(ports, Init(), history), a)
  {
    assert (history + [a])[..|history|] == history;
  }

  /** A reply to a call that is not suspended does nothing. */
  lemma NoTaskNoStep(ports: Ports, s: State, t: nat, reply: Reply, now: int)
    requires t !in s.tasks
    ensures Step(ports, s, Resume(t, reply, now)) == s
  {
  }

  lemma ExtendTwo(ports: Ports, history: seq<Action>, a: Action, b: Action)
    requires Sequential(ports, history) && Exec(ports, Init(), history).tasks == map[] && b.Resume?
    ensures Sequential(ports, history + [a, b])
    ensures Exec(ports, Init(), history + [a, b]) == Step(ports, Step(ports, Exec(ports, Init(), history), a), b)
  {
    Extend(ports, history, a);
    Extend(ports, history + [a], b);
    assert history + [a] + [b] == history + [a, b];
  }

  // ---- Whole calls on the machine at rest ----

  /** Two states at rest agree but for the store, the log and the counters. */
  predicate RestsWith(s: State, r: State, store: map<string, Record>, preimages: map<string, string>) {
    s.tasks == map[] && r.tasks == map[] && r.order == s.order && r.store == store && r.preimages == preimages
  }

  /** A synchronous call stores what the domain function makes of the record, or nothing. */
  lemma MoveRests(ports: Ports, s: State, a: Action)
    requires s.tasks == map[] && Synchronous(a) && (a.id in s.store ==> s.store[a.id].id == a.id)
    ensures RestsWith(s, Step(ports, s, a),
                      if a.id in s.store && Move(s.store[a.id], a).Ok?
                      then s.store[a.id := Move(s.store[a.id], a).value]
                      else s.store,
                      s.preimages)
  {
    if a.id in s.store && Move(s.store[a.id], a).Ok? {
      MoveKeepsId(s.store[a.id], a);
      WriteTasks(s, Move(s.store[a.id], a).value);
    }
  }

  function SimpleCall(ports: Ports, s: State, id: string, result: string, oracle: Option<string>, now: int,
    answers: seq<bool>, later: int): State {
    Step(ports, Step(ports, s, StartSimple(id, result, oracle, now)), Resume(s.next, Answers(answers), later))
  }

  lemma SimpleRefused(ports: Ports, s: State, id: string, result: string, oracle: Option<string>, now: int,
    answers: seq<bool>, later: int)
    requires s.tasks == map[] && (id in s.store ==> !s.store[id].status.Pending?)
    ensures SimpleCall(ports, s, id, result, oracle, now, answers, later) == s
  {
    NoTaskNoStep(ports, s, s.next, Answers(answers), later);
  }

  lemma SimpleExpired(ports: Ports, s: State, id: string, result: string, oracle: Option<string>, now: int,
    answers: seq<bool>, later: int)
    requires s.tasks == map[] && id in s.store && s.store[id].id == id
    requires s.store[id].status.Pending? && s.store[id].expiresAt < now
    ensures RestsWith(s, SimpleCall(ports, s, id, result, oracle, now, answers, later),
                      s.store[id := s.store[id].(status := Expired, payment := Cancelled)], s.preimages)
  {
    var w := Write(s, s.store[id].(status := Expired, payment := Cancelled));
    assert Step(ports, s, StartSimple(id, result, oracle, now)) == w;
    NoTaskNoStep(ports, w, s.next, Answers(answers), later);
  }

  lemma SimpleJudged(ports: Ports, s: State, id: string, result: string, oracle: Option<string>, now: int,
    answers: seq<bool>, later: int)
    requires s.tasks == map[] && id in s.store && s.store[id].id == id
    requires s.store[id].status.Pending? && s.store[id].expiresAt >= now
    requires |answers| == |PanelIds(Choose(s.order, s.store[id].oracleIds, s.store[id].quorum, oracle))|
    ensures var q := s.store[id];
      var panel := Choose(s.order, q.oracleIds, q.quorum, oracle);
      var final := Finalize(q, Passes(panel, answers), Attestations(PanelIds(panel), answers)).(
        result := Some(result), submittedAt := Some(later));
      RestsWith(s, SimpleCall(ports, s, id, result, oracle, now, answers, later),
                if !Passes(panel, answers) && answers == [] then s.store else s.store[id := final], s.preimages)
  {
    var q := s.store[id];
    var panel := Choose(s.order, q.oracleIds, q.quorum, oracle);
    var spawned := Spawn(s, AwaitSimple(q, result, panel));
    assert Step(ports, s, StartSimple(id, result, oracle, now)) == spawned;
    assert Step(ports, spawned, Resume(s.next, Answers(answers), later)) == ContinueSimple(spawned, s.next,
      spawned.tasks[s.next], answers, later);
    assert End(spawned, s.next).tasks == map[];
  }

  function SelectCall(ports: Ports, s: State, id: string, provider: string, token: Option<string>,
                      valid: bool, sats: Option<int>, lockOk: bool): State {
    Step(ports, Step(ports, Step(ports, s, StartSelect(id, provider, token)),
                     Resume(s.next, Amount(valid, sats), 0)),
         Resume(s.next, Lock(lockOk), 0))
  }

  /** A selection is refused before any check: no such query, a wrong status, or no port to check with. */
  predicate SelectRefused(ports: Ports, s: State, id: string, provider: string, token: Option<string>) {
    || id !in s.store
    || s.store[id].escrow.None?
    || SelectProvider(s.store[id], provider, Updates(None, None)).Err?
    || (Present(EscrowRef(s.store[id].escrow.value, token))
        && (NonZero(s.store[id].lockSats) || HasHash(s.store[id].escrow.value)) && !ports.escrow)
  }

  lemma SelectRefusedStays(ports: Ports, s: State, id: string, provider: string, token: Option<string>,
                           valid: bool, sats: Option<int>, lockOk: bool)
    requires s.tasks == map[] && SelectRefused(ports, s, id, provider, token)
    ensures SelectCall(ports, s, id, provider, token, valid, sats, lockOk) == s
  {
    assert Step(ports, s, StartSelect(id, provider, token)) == s;
    NoTaskNoStep(ports, s, s.next, Amount(valid, sats), 0);
    NoTaskNoStep(ports, s, s.next, Lock(lockOk), 0);
  }

  /** A committed selection with nothing suspended. */
  lemma CommitRests(s: State, q: Record, provider: string, u: Updates)
    requires s.tasks == map[] && q.escrow.Some? && q.status.AwaitingOffers?
    ensures RestsWith(s, CommitSelection(s, q, provider, u),
        s.store[q.id := SelectProvider(q, provider, u).value], s.preimages)
  {
  }

  lemma LockReplyRests(ports: Ports, s: State, t: nat, q: Record, provider: string, u: Updates, lockOk: bool)
    requires s.tasks == map[t := AwaitLock(q, provider, u)] && q.escrow.Some? && q.status.AwaitingOffers?
    ensures RestsWith(s.(tasks := map[]), Step(ports, s, Resume(t, Lock(lockOk), 0)),
                      if lockOk then s.store[q.id := SelectProvider(q, provider, u).value] else s.store, s.preimages)
  {
    assert End(s, t).tasks == map[];
    CommitRests(End(s, t), q, provider, u);
  }

  /** The checks that a selection makes, and the updates it commits when they succeed. */
  predicate NeedsAmount(q: Record, token: Option<string>)
    requires q.escrow.Some?
  {
    Present(EscrowRef(q.escrow.value, token)) && NonZero(q.lockSats)
  }

  predicate NeedsLock(q: Record, token: Option<string>)
    requires q.escrow.Some?
  {
    Present(EscrowRef(q.escrow.value, token)) && HasHash(q.escrow.value)
  }

  lemma AmountReplyRests(ports: Ports, s: State, t: nat, q: Record, provider: string, token: Option<string>,
                         valid: bool, sats: Option<int>, lockOk: bool)
    requires s.tasks == map[t := AwaitAmount(q, provider, token)] && q.escrow.Some? && q.status.AwaitingOffers?
    ensures var u := Updates(token, Some(sats));
      RestsWith(s.(tasks := map[]),
                Step(ports, Step(ports, s, Resume(t, Amount(valid, sats), 0)), Resume(t, Lock(lockOk), 0)),
                if valid && (HasHash(q.escrow.value) ==> lockOk)
                then s.store[q.id := SelectProvider(q, provider, u).value]
                else s.store,
                s.preimages)
  {
    var u := Updates(token, Some(sats));
    var mid := Step(ports, s, Resume(t, Amount(valid, sats), 0));
    assert mid == ContinueAmount(s, t, s.tasks[t], valid, sats);
    assert End(s, t).tasks == map[];
    if valid && HasHash(q.escrow.value) {
      assert mid.tasks == map[t := AwaitLock(q, provider, u)];
      LockReplyRests(ports, mid, t, q, provider, u, lockOk);
    } else {
      if valid {
        CommitRests(End(s, t), q, provider, u);
      }
      NoTaskNoStep(ports, mid, t, Lock(lockOk), 0);
    }
  }

  lemma SelectChecked(ports: Ports, s: State, id: string, provider: string, token: Option<string>,
                      valid: bool, sats: Option<int>, lockOk: bool)
    requires s.tasks == map[] && !SelectRefused(ports, s, id, provider, token) && s.store[id].id == id
    ensures var q := s.store[id];
      var u := Updates(token, if NeedsAmount(q, token) then Some(sats) else None);
      RestsWith(s, SelectCall(ports, s, id, provider, token, valid, sats, lockOk),
                if (NeedsAmount(q, token) ==> valid) && (NeedsLock(q, token) ==> lockOk)
                then s.store[id := SelectProvider(q, provider, u).value] else s.store,
                s.preimages)
  {
    var q := s.store[id];
    var first := Step(ports, s, StartSelect(id, provider, token));
    if NeedsAmount(q, token) {
      assert first == Spawn(s, AwaitAmount(q, provider, token));
      AmountReplyRests(ports, first, s.next, q, provider, token, valid, sats, lockOk);
    } else if NeedsLock(q, token) {
      assert first == Spawn(s, AwaitLock(q, provider, Updates(token, None)));
      assert Step(ports, first, Resume(s.next, Amount(valid, sats), 0)) == first;
      LockReplyRests(ports, first, s.next, q, provider, Updates(token, None), lockOk);
    } else {
      CommitRests(s, q, provider, Updates(token, None));
      NoTaskNoStep(ports, first, s.next, Amount(valid, sats), 0);
      NoTaskNoStep(ports, first, s.next, Lock(lockOk), 0);
    }
  }

  /** A selection goes through: it is not refused, and the replies to the checks it makes are good. */
  predicate SelectionSucceeds(
    ports: Ports, s: State, id: string, provider: string, token: Option<string>, valid: bool, lockOk: bool)
  {
    && !SelectRefused(ports, s, id, provider, token)
    && (NeedsAmount(s.store[id], token) ==> valid) && (NeedsLock(s.store[id], token) ==> lockOk)
  }

  /** What a whole selection call leaves behind. */
  lemma SelectRests(ports: Ports, s: State, id: string, provider: string, token: Option<string>,
                    valid: bool, sats: Option<int>, lockOk: bool)
    requires s.tasks == map[] && (id in s.store ==> s.store[id].id == id)
    ensures RestsWith(s, SelectCall(ports, s, id, provider, token, valid, sats, lockOk),
                      if SelectionSucceeds(ports, s, id, provider, token, valid, lockOk)
                      then
                        var u := Updates(token, if NeedsAmount(s.store[id], token) then Some(sats) else None);
                        s.store[id := SelectProvider(s.store[id], provider, u).value]
                      else s.store,
                      s.preimages)
  {
    if SelectRefused(ports, s, id, provider, token) {
      SelectRefusedStays(ports, s, id, provider, token, valid, sats, lockOk);
    } else {
      SelectChecked(ports, s, id, provider, token, valid, sats, lockOk);
    }
  }

  lemma ExtendThree(ports: Ports, history: seq<Action>, a: Action, b: Action, c: Action)
    requires Sequential(ports, history) && Exec(ports, Init(), history).tasks == map[] && b.Resume? && c.Resume?
    ensures Sequential(ports, history + [a, b, c])
    ensures Exec(ports, Init(), history + [a, b, c])
         == Step(ports, Step(ports, Step(ports, Exec(ports, Init(), history), a), b), c)
  {
    ExtendTwo(ports, history, a, b);
    Extend(ports, history + [a, b], c);
    assert history + [a, b] + [c] == history + [a, b, c];
  }

  function EscrowCall(
    ports: Ports, s: State, id: string, result: string, provider: string, oracle: Option<string>, now: int,
    answers: seq<bool>, signatures: Option<seq<string>>): State
  {
    AfterVerdict(ports, Step(ports, Step(ports, s, StartEscrow(id, result, provider, oracle, now)),
                             Resume(s.next, Answers(answers), 0)),
                 s.next, signatures)
  }

  /** The replies after the verdict: the preimage is read, then deleted, or the signatures arrive. */
  function AfterVerdict(ports: Ports, s: State, t: nat, signatures: Option<seq<string>>): State {
    Step(ports, Step(ports, Step(ports, s, Resume(t, Tick, 0)), Resume(t, Tick, 0)),
      Resume(t, Signatures(signatures), 0))
  }

  /** At rest with this outcome just returned. */
  predicate RestsReturned(
    s: State, r: State, store: map<string, Record>, preimages: map<string, string>, t: nat, id: string, o: Outcome)
  {
    RestsWith(s, r, store, preimages) && r.log != [] && r.log[|r.log| - 1] == Returned(t, id, o)
  }

  lemma AfterVerdictIdle(ports: Ports, s: State, t: nat, signatures: Option<seq<string>>)
    requires t !in s.tasks
    ensures AfterVerdict(ports, s, t, signatures) == s
  {
    NoTaskNoStep(ports, s, t, Tick, 0);
    NoTaskNoStep(ports, s, t, Signatures(signatures), 0);
  }

  lemma AfterVerdictReads(ports: Ports, s: State, t: nat, id: string, hash: string, signatures: Option<seq<string>>)
    requires s.tasks == map[t := AwaitRead(id, hash)]
    ensures var found := Stored(s, hash);
      RestsReturned(s.(tasks := map[]), AfterVerdict(ports, s, t, signatures), s.store,
                    if found then s.preimages - {hash} else s.preimages, t, id,
                    Outcome(true, if found then Some(s.preimages[hash]) else None, None))
  {
    var one := Step(ports, s, Resume(t, Tick, 0));
    assert one == ContinueRead(s, t, s.tasks[t]);
    assert End(s, t).tasks == map[];
    if Stored(s, hash) {
      assert one.tasks == map[t := AwaitDelete(id, hash, s.preimages[hash])];
      var two := Step(ports, one, Resume(t, Tick, 0));
      assert two == ContinueDelete(one, t, one.tasks[t]);
      assert End(one, t).tasks == map[];
      NoTaskNoStep(ports, two, t, Signatures(signatures), 0);
    } else {
      NoTaskNoStep(ports, one, t, Tick, 0);
      NoTaskNoStep(ports, one, t, Signatures(signatures), 0);
    }
  }

  lemma AfterVerdictSigns(ports: Ports, s: State, t: nat, id: string, group: string, signatures: Option<seq<string>>)
    requires s.tasks == map[t := AwaitSignature(id, group)]
    ensures RestsReturned(s.(tasks := map[]), AfterVerdict(ports, s, t, signatures), s.store, s.preimages, t, id,
                          Outcome(true, None, signatures))
  {
    assert Step(ports, s, Resume(t, Tick, 0)) == s;
    assert End(s, t).tasks == map[];
  }

  /** What the settlement of a judged submission yields. */
  function Artifacts(
    ports: Ports, e: Escrow, preimages: map<string, string>, passed: bool, signatures: Option<seq<string>>): Outcome
  {
    if passed && HasHash(e) && ports.preimages && e.settlement.hash in preimages && preimages[e.settlement.hash] != ""
    then Outcome(true, Some(preimages[e.settlement.hash]), None)
    else if passed && e.settlement.Frost? && ports.frost then Outcome(true, None, signatures)
    else Outcome(passed, None, None)
  }

  function Remaining(ports: Ports, e: Escrow, preimages: map<string, string>, passed: bool): map<string, string> {
    if passed && HasHash(e) && ports.preimages && e.settlement.hash in preimages && preimages[e.settlement.hash] != ""
    then preimages - {e.settlement.hash} else preimages
  }

  lemma SettleRests(ports: Ports, s: State, t: nat, q: Record, passed: bool, signatures: Option<seq<string>>)
    requires s.tasks == map[] && q.escrow.Some?
    ensures RestsReturned(s, AfterVerdict(ports, Settle(ports, s, t, q, passed), t, signatures), s.store,
                          Remaining(ports, q.escrow.value, s.preimages, passed), t, q.id,
                          Artifacts(ports, q.escrow.value, s.preimages, passed, signatures))
  {
    var e := q.escrow.value;
    var r := Settle(ports, s, t, q, passed);
    if passed && HasHash(e) && ports.preimages {
      AfterVerdictReads(ports, r, t, q.id, e.settlement.hash, signatures);
    } else if passed && e.settlement.Frost? && ports.frost {
      AfterVerdictSigns(ports, r, t, q.id, e.settlement.group, signatures);
    } else {
      assert End(s, t) == s;
      AfterVerdictIdle(ports, r, t, signatures);
    }
  }

  lemma EscrowRefused(
    ports: Ports, s: State, id: string, result: string, provider: string, oracle: Option<string>, now: int,
    answers: seq<bool>, signatures: Option<seq<string>>)
    requires s.tasks == map[]
    requires (id in s.store ==> s.store[id].id == id && RecordResult(s.store[id], result, provider, now).Err?)
    ensures RestsReturned(s, EscrowCall(ports, s, id, result, provider, oracle, now, answers, signatures), s.store,
                          s.preimages, s.next, id, Outcome(false, None, None))
  {
    var first := Step(ports, s, StartEscrow(id, result, provider, oracle, now));
    NoTaskNoStep(ports, first, s.next, Answers(answers), 0);
    AfterVerdictIdle(ports, first, s.next, signatures);
  }

  lemma VerdictStep(ports: Ports, s: State, t: nat, v: Record, provider: string, panel: Panel, answers: seq<bool>)
    requires s.tasks == map[t := AwaitVerdict(v, provider, panel)] && |answers| == |PanelIds(panel)|
    ensures var final := Finalize(v, Passes(panel, answers), Attestations(PanelIds(panel), answers));
      var w := Write(Log(End(s, t), Verified(t, v.id, provider, panel, answers)), final);
      && w.tasks == map[] && w.store == s.store[v.id := final] && w.preimages == s.preimages && w.order == s.order
      && Step(ports, s, Resume(t, Answers(answers), 0)) == Settle(ports, w, t, final, Passes(panel, answers))
  {
    var final := Finalize(v, Passes(panel, answers), Attestations(PanelIds(panel), answers));
    var e := Verified(t, v.id, provider, panel, answers);
    assert End(s, t).tasks == map[];
    WriteTasks(Log(End(s, t), e), final);
    SettleAfterEnd(ports, s, t, final, Passes(panel, answers), e);
    assert Step(ports, s, Resume(t, Answers(answers), 0)) == ContinueVerdict(ports, s, t, s.tasks[t], answers);
  }

  lemma EscrowJudged(
    ports: Ports, s: State, id: string, result: string, provider: string, oracle: Option<string>, now: int,
    answers: seq<bool>, signatures: Option<seq<string>>)
    requires s.tasks == map[] && id in s.store && s.store[id].id == id
    requires RecordResult(s.store[id], result, provider, now).Ok?
    requires |answers| == |PanelIds(Choose(s.order, s.store[id].oracleIds, s.store[id].quorum, oracle))|
    ensures var q := s.store[id];
      var panel := Choose(s.order, q.oracleIds, q.quorum, oracle);
      var passed := Passes(panel, answers);
      var final := Finalize(RecordResult(q, result, provider, now).value, passed,
        Attestations(PanelIds(panel), answers));
      && q.escrow.Some?
      && RestsReturned(s, EscrowCall(ports, s, id, result, provider, oracle, now, answers, signatures),
                       s.store[id := final],
                       Remaining(ports, q.escrow.value, s.preimages, passed), s.next, id,
                       Artifacts(ports, q.escrow.value, s.preimages, passed, signatures))
  {
    var q := s.store[id];
    var panel := Choose(s.order, q.oracleIds, q.quorum, oracle);
    var passed := Passes(panel, answers);
    var v := RecordResult(q, result, provider, now).value;
    var final := Finalize(v, passed, Attestations(PanelIds(panel), answers));
    var first := Spawn(Write(s, v), AwaitVerdict(v, provider, panel));
    assert Step(ports, s, StartEscrow(id, result, provider, oracle, now)) == first;
    WriteTasks(s, v);
    assert first.store == s.store[id := v] && first.preimages == s.preimages && first.order == s.order;
    VerdictStep(ports, first, s.next, v, provider, panel, answers);
    var w := Write(Log(End(first, s.next), Verified(s.next, v.id, provider, panel, answers)), final);
    assert w.store == s.store[id := final];
    SettleRests(ports, w, s.next, final, passed, signatures);
  }

  lemma ExtendFive(ports: Ports, history: seq<Action>, a: Action, b: Action, c: Action, d: Action, e: Action)
    requires Sequential(ports, history) && Exec(ports, Init(), history).tasks == map[]
    requires b.Resume? && c.Resume? && d.Resume? && e.Resume?
    ensures Sequential(ports, history + [a, b, c, d, e])
    ensures Exec(ports, Init(), history + [a, b, c, d, e])
         == Step(ports, Step(ports, Step(ports, Step(ports, Step(ports, Exec(ports, Init(), history), a), b), c), d), e)
  {
    ExtendThree(ports, history, a, b, c);
    Extend(ports, history + [a, b, c], d);
    assert history + [a, b, c] + [d] == history + [a, b, c, d];
    Extend(ports, history + [a, b, c, d], e);
    assert history + [a, b, c, d] + [e] == history + [a, b, c, d, e];
  }

  /** The actions of one escrow submission; a reply that no longer applies does nothing. */
  function EscrowScript(t: nat, id: string, result: string, provider: string, oracle: Option<string>, now: int,
                        answers: seq<bool>, signatures: Option<seq<string>>): seq<Action> {
    [StartEscrow(id, result, provider, oracle, now), Resume(t, Answers(answers), 0), Resume(t, Tick, 0),
      Resume(t, Tick, 0),
     Resume(t, Signatures(signatures), 0)]
  }

  /** A submission that is judged: the query accepts it and every panel member answers. */
  predicate Judged(store: map<string, Record>, order: seq<string>, id: string, result: string, provider: string,
                   oracle: Option<string>, now: int, answers: seq<bool>) {
    && id in store && RecordResult(store[id], result, provider, now).Ok? && store[id].escrow.Some?
    && |answers| == |PanelIds(Choose(order, store[id].oracleIds, store[id].quorum, oracle))|
  }

  /** What a whole escrow submission leaves in the store and the preimage store, and what it returns. */
  function EscrowEffect(
    ports: Ports, store: map<string, Record>, preimages: map<string, string>, order: seq<string>, id: string,
    result: string, provider: string, oracle: Option<string>, now: int, answers: seq<bool>,
    signatures: Option<seq<string>>): (map<string, Record>, map<string, string>, Outcome)
  {
    if !Judged(store, order, id, result, provider, oracle, now, answers)
    then (store, preimages, Outcome(false, None, None))
    else
      var q := store[id];
      var panel := Choose(order, q.oracleIds, q.quorum, oracle);
      var passed := Passes(panel, answers);
      var final := Finalize(RecordResult(q, result, provider, now).value, passed,
        Attestations(PanelIds(panel), answers));
      (store[id := final], Remaining(ports, q.escrow.value, preimages, passed),
       Artifacts(ports, q.escrow.value, preimages, passed, signatures))
  }

  lemma EscrowRun(
    ports: Ports, history: seq<Action>, id: string, result: string, provider: string, oracle: Option<string>, now: int,
    answers: seq<bool>, signatures: Option<seq<string>>)
    requires Sequential(ports, history) && Exec(ports, Init(), history).tasks == map[]
    requires var s := Exec(ports, Init(), history);
      id in s.store ==> |answers| == |PanelIds(Choose(s.order, s.store[id].oracleIds, s.store[id].quorum, oracle))|
    ensures var s := Exec(ports, Init(), history);
      var after := history + EscrowScript(s.next, id, result, provider, oracle, now, answers, signatures);
      var effect := EscrowEffect(ports, s.store, s.preimages, s.order, id, result, provider,
        oracle, now, answers, signatures);
      && Sequential(ports, after)
      && RestsReturned(s, Exec(ports, Init(), after), effect.0, effect.1, s.next, id, effect.2)
  {
    EveryRunKeepsInv(ports, history);
    var s := Exec(ports, Init(), history);
    var script := EscrowScript(s.next, id, result, provider, oracle, now, answers, signatures);
    ExtendFive(ports, history, script[0], script[1], script[2], script[3], script[4]);
    if id in s.store && RecordResult(s.store[id], result, provider, now).Ok? {
      EscrowJudged(ports, s, id, result, provider, oracle, now, answers, signatures);
    } else {
      EscrowRefused(ports, s, id, result, provider, oracle, now, answers, signatures);
    }
  }

  class Service {
    const ports: Ports
    var store: map<string, Record>
    var preimages: map<string, string>
    var oracles: seq<string>
    ghost var history: seq<Action>

    /** The machine state after every call so far. */
    ghost function Model(): State
      reads this
    {
      Exec(ports, Init(), history)
    }

    /** The fields are the machine's, after a sequential run that has come to rest. */
    ghost predicate Valid()
      reads this
    {
      var s := Model();
      && Sequential(ports, history)
      && s.tasks == map[]
      && store == s.store && preimages == s.preimages && oracles == s.order
    }

    constructor (ports: Ports)
      ensures Valid() && this.ports == ports && history == [] && store == map[]
    {
      this.ports := ports;
      store := map[];
      preimages := map[];
      oracles := [];
      history := [];
    }

    method CreateQuery(id: string, o: Options, now: int) returns (r: Result<Record, Refusal>)
      requires Valid() && id !in Model().used
      modifies this
      ensures Valid() && history == old(history) + [DoCreate(id, o, now)]
      ensures r == Create(id, o, now)
    {
      Extend(ports, history, DoCreate(id, o, now));
      history := history + [DoCreate(id, o, now)];
      r := Create(id, o, now);
      if r.Ok? {
        store := store[id := r.value];
      }
    }

    method IssueHash(hash: string, preimage: string)
      requires Valid() && hash !in Model().issued
      modifies this
      ensures Valid() && history == old(history) + [DoIssue(hash, preimage)]
      ensures store == old(store) && preimages == old(preimages)[hash := preimage]
    {
      Extend(ports, history, DoIssue(hash, preimage));
      history := history + [DoIssue(hash, preimage)];
      preimages := preimages[hash := preimage];
    }

    method CancelQuery(id: string) returns (ok: bool)
      requires Valid()
      modifies this
      ensures Valid() && history == old(history) + [DoCancel(id)]
      ensures ok <==> id in old(store) && Open(old(store)[id].status)
    {
      KeyIsId(id);
      Extend(ports, history, DoCancel(id));
      history := history + [DoCancel(id)];
      if id !in store {
        return false;
      }
      var query := store[id];
      if !Open(query.status) {
        return false;
      }
      store := store[id := query.(status := Rejected, payment := Cancelled)];
      return true;
    }

    /** Record an offer, begin work, record a result or complete a verification: read, move, store. */
    method Transition(a: Action) returns (ok: bool)
      requires Valid() && (a.DoOffer? || a.DoBegin? || a.DoRecord? || a.DoComplete?)
      modifies this
      ensures Valid() && history == old(history) + [a]
      ensures ok <==> a.id in old(store) && Move(old(store)[a.id], a).Ok?
    {
      KeyIsId(a.id);
      MoveRests(ports, Model(), a);
      Extend(ports, history, a);
      history := history + [a];
      if a.id !in store {
        return false;
      }
      var transition := Move(store[a.id], a);
      if transition.Err? {
        return false;
      }
      store := store[a.id := transition.value];
      return true;
    }

    /** One turn of the sweep. */
    method ExpireOne(query: Record, now: int) returns (hit: bool)
      requires Valid() && query.id in store && store[query.id] == query
      modifies this
      ensures Valid() && history == old(history) + [DoExpire(query.id, now)]
      ensures store == old(store)[query.id := Swept(query, now)]
      ensures hit <==> Expirable(query.status) && query.expiresAt < now
    {
      MoveRests(ports, Model(), DoExpire(query.id, now));
      Extend(ports, history, DoExpire(query.id, now));
      history := history + [DoExpire(query.id, now)];
      hit := Expirable(query.status) && query.expiresAt < now;
      if hit {
        store := store[query.id := query.(status := Expired, payment := Cancelled)];
      }
    }

    /** One turn of the sweep, counted. */
    method SweepOne(
      values: map<string, Record>, left: set<string>, id: string, now: int, count: nat) returns (total: nat)
      requires Valid() && id in left && left <= values.Keys
      requires SweptSoFar(values, store, left, now) && Counted(values, left, now, count)
      modifies this
      ensures Valid() && old(history) <= history
      ensures SweptSoFar(values, store, left - {id}, now) && Counted(values, left - {id}, now, total)
    {
      CountStep(values, left, id, now, count);
      SweptStep(values, store, left, id, now);
      var hit := ExpireOne(values[id], now);
      total := if hit then count + 1 else count;
    }

    /** The sweep: every expirable record past its deadline expires, the others stay, and the count is right. */
    method ExpireQueries(now: int) returns (count: nat)
      requires Valid()
      modifies this
      ensures Valid() && old(history) <= history
      ensures store.Keys == old(store).Keys && forall id :: id in store ==> store[id] == Swept(old(store)[id], now)
      ensures count == |Due(old(store), now)|
    {
      count := 0;
      var values := store;
      var left := store.Keys;
      KeysAreIds();
      while left != {}
        invariant Valid() && old(history) <= history
        invariant left <= values.Keys && SweptSoFar(values, store, left, now)
        invariant Counted(values, left, now, count)
        decreases left
      {
        var id :| id in left;
        count := SweepOne(values, left, id, now, count);
        left := left - {id};
      }
      assert Due(values, now) - left == Due(values, now);
    }

    /** One turn of the purge. */
    method PurgeOne(query: Record) returns (hit: bool)
      requires Valid() && query.id in store && store[query.id] == query
      modifies this
      ensures Valid() && history == old(history) + [DoPurge(query.id)]
      ensures store == if hit then old(store) - {query.id} else old(store)
      ensures hit <==> query.status.Expired?
    {
      Extend(ports, history, DoPurge(query.id));
      history := history + [DoPurge(query.id)];
      hit := query.status.Expired?;
      if hit {
        store := store - {query.id};
      }
    }

    /** The purge: exactly the expired records are returned, each once, and deleted. */
    method PurgeExpired() returns (expired: seq<Record>)
      requires Valid()
      modifies this
      ensures Valid() && old(history) <= history
      ensures PurgedSoFar(old(store), store, {})
      ensures ListsExpired(old(store), expired, {})
    {
      expired := [];
      var values := store;
      var left := store.Keys;
      KeysAreIds();
      while left != {}
        invariant Valid() && old(history) <= history
        invariant left <= values.Keys && PurgedSoFar(values, store, left) && ListsExpired(values, expired, left)
        decreases left
      {
        var id :| id in left;
        PurgedStep(values, store, left, id);
        var hit := PurgeOne(values[id]);
        if hit {
          ListsStep(values, expired, left, id);
          expired := expired + [values[id]];
        } else {
          ListsSkip(values, expired, left, id);
        }
        left := left - {id};
      }
    }

    /** The panel that would judge a submission now. */
    function PanelFor(id: string, oracle: Option<string>): Panel
      reads this
    {
      if id in store then Choose(oracles, store[id].oracleIds, store[id].quorum, oracle) else Nobody
    }

    /** A simple submission with the answers of its panel, judged at once. */
    method SubmitQueryResult(
      id: string, result: string, oracle: Option<string>, now: int, answers: seq<bool>, later: int)
        returns (ok: bool)
      requires Valid() && |answers| == |PanelIds(PanelFor(id, oracle))|
      modifies this
      ensures Valid()
      ensures history == old(history) + [StartSimple(id, result, oracle, now),
          Resume(old(Model().next), Answers(answers), later)]
      ensures ok <==>
                && id in old(store) && old(store)[id].status.Pending? && old(store)[id].expiresAt >= now
                && Passes(old(PanelFor(id, oracle)), answers)
      ensures ok ==> id in store && store[id].status.Approved? && store[id].result == Some(result)
    {
      KeysAreIds();
      ghost var s := Model();
      ExtendTwo(ports, history, StartSimple(id, result, oracle, now), Resume(s.next, Answers(answers), later));
      history := history + [StartSimple(id, result, oracle, now), Resume(s.next, Answers(answers), later)];
      if id !in store {
        SimpleRefused(ports, s, id, result, oracle, now, answers, later);
        return false;
      }
      var query := store[id];
      if !query.status.Pending? {
        SimpleRefused(ports, s, id, result, oracle, now, answers, later);
        return false;
      }
      if query.expiresAt < now {
        SimpleExpired(ports, s, id, result, oracle, now, answers, later);
        store := store[id := query.(status := Expired, payment := Cancelled)];
        return false;
      }
      SimpleJudged(ports, s, id, result, oracle, now, answers, later);
      var panel := Choose(oracles, query.oracleIds, query.quorum, oracle);
      var passed := Passes(panel, answers);
      if !passed && answers == [] {
        return false;
      }
      var updated := Finalize(query, passed, Attestations(PanelIds(panel), answers));
      store := store[id := updated.(result := Some(result), submittedAt := Some(later))];
      return passed;
    }

    /** A selection with the replies of the escrow port to its checks. */
    method SelectProviderFor(
      id: string, provider: string, token: Option<string>, valid: bool, sats: Option<int>, lockOk: bool)
        returns (ok: bool)
      requires Valid()
      modifies this
      ensures Valid()
      ensures history == old(history) + [StartSelect(id, provider, token),
                                         Resume(old(Model().next), Amount(valid, sats), 0),
                                         Resume(old(Model().next), Lock(lockOk), 0)]
      ensures ok <==> SelectionSucceeds(ports, old(Model()), id, provider, token, valid, lockOk)
      ensures ok ==> id in store && store[id].status.ProviderSelected? &&
                     store[id].escrow.Some? && store[id].escrow.value.provider == Some(provider)
      ensures !ok ==> store == old(store)
    {
      KeysAreIds();
      ghost var s := Model();
      ExtendThree(ports, history, StartSelect(id, provider, token), Resume(s.next, Amount(valid, sats), 0),
        Resume(s.next, Lock(lockOk), 0));
      history := history + [StartSelect(id, provider, token), Resume(s.next, Amount(valid, sats), 0),
        Resume(s.next, Lock(lockOk), 0)];
      SelectRests(ports, s, id, provider, token, valid, sats, lockOk);
      if id !in store {
        return false;
      }
      var query := store[id];
      var dryRun := SelectProvider(query, provider, Updates(None, None));
      if dryRun.Err? || query.escrow.None? {
        return false;
      }
      var escrowRef := EscrowRef(query.escrow.value, token);
      if Present(escrowRef) && (NonZero(query.lockSats) || HasHash(query.escrow.value)) && !ports.escrow {
        return false;
      }
      var updates := Updates(token, None);
      if Present(escrowRef) && NonZero(query.lockSats) {
        if !valid {
          return false;
        }
        updates := updates.(verifiedSats := Some(sats));
      }
      if Present(escrowRef) && HasHash(query.escrow.value) {
        if !lockOk {
          return false;
        }
      }
      var transition := SelectProvider(query, provider, updates);
      if transition.Err? {
        return false;
      }
      store := store[id := transition.value];
      return true;
    }

    /** The settlement of a judged submission: the preimage is read and deleted, or the signatures are passed on. */
    method TakeArtifact(e: Escrow, passed: bool, signatures: Option<seq<string>>) returns (o: Outcome)
      modifies this`preimages
      ensures o.ok == passed && (o.preimage.None? || o.signature.None?)
      ensures o.preimage.Some? <==>
                && passed && HasHash(e) && ports.preimages
                && e.settlement.hash in old(preimages) && old(preimages)[e.settlement.hash] != ""
      ensures o.preimage.Some? ==>
        o.preimage.value == old(preimages)[e.settlement.hash] && e.settlement.hash !in preimages
      ensures forall h :: h in preimages <==> h in old(preimages) && (o.preimage.Some? ==> h != e.settlement.hash)
      ensures forall h :: h in preimages ==> preimages[h] == old(preimages)[h]
      ensures o.signature.Some? <==> passed && e.settlement.Frost? && ports.frost && signatures.Some?
      ensures o.signature.Some? ==> o.signature == signatures
    {
      if passed && e.settlement.Htlc? && e.settlement.hash != "" && ports.preimages {
        if e.settlement.hash in preimages && preimages[e.settlement.hash] != "" {
          var preimage := preimages[e.settlement.hash];
          preimages := preimages - {e.settlement.hash};
          return Outcome(true, Some(preimage), None);
        }
      }
      if passed && e.settlement.Frost? && ports.frost && signatures.Some? {
        return Outcome(true, None, signatures);
      }
      return Outcome(passed, None, None);
    }

    /** The statements of an escrow submission, on the stores. */
    method RecordAndSettle(id: string, result: string, provider: string, oracle: Option<string>, now: int,
                           answers: seq<bool>, signatures: Option<seq<string>>)
        returns (o: Outcome)
      requires |answers| == |PanelIds(PanelFor(id, oracle))|
      modifies this`store, this`preimages
      ensures (store, preimages, o)
           == EscrowEffect(ports, old(store), old(preimages), oracles, id, result, provider,
             oracle, now, answers, signatures)
    {
      if id !in store {
        return Outcome(false, None, None);
      }
      var query := store[id];
      var transition := RecordResult(query, result, provider, now);
      if transition.Err? {
        return Outcome(false, None, None);
      }
      store := store[id := transition.value];

      var panel := Choose(oracles, query.oracleIds, query.quorum, oracle);
      var passed := Passes(panel, answers);
      store := store[id := Finalize(transition.value, passed, Attestations(PanelIds(panel), answers))];
      assert store == old(store)[id := Finalize(transition.value, passed, Attestations(PanelIds(panel), answers))];

      o := TakeArtifact(query.escrow.value, passed, signatures);
      assert preimages == Remaining(ports, query.escrow.value, old(preimages), passed);
    }

    /** An escrow submission with its panel's answers and the reply of the signature port. */
    method SubmitEscrowResult(id: string, result: string, provider: string, oracle: Option<string>, now: int,
                              answers: seq<bool>, signatures: Option<seq<string>>)
        returns (o: Outcome)
      requires Valid() && |answers| == |PanelIds(PanelFor(id, oracle))|
      modifies this
      ensures Valid()
      ensures history == old(history) + EscrowScript(old(Model().next), id, result, provider,
          oracle, now, answers, signatures)
      ensures Model().log != [] && Model().log[|Model().log| - 1] == Returned(old(Model().next), id, o)
    {
      ghost var after := history + EscrowScript(Model().next, id, result, provider, oracle, now, answers, signatures);
      EscrowRun(ports, history, id, result, provider, oracle, now, answers, signatures);
      o := RecordAndSettle(id, result, provider, oracle, now, answers, signatures);
      history := after;
    }

    lemma KeysAreIds()
      requires Sequential(ports, history)
      ensures forall id :: id in Model().store ==> Model().store[id].id == id
    {
      EveryRunKeepsInv(ports, history);
    }

    /** Every record is stored under its own id. */
    lemma KeyIsId(id: string)
      requires Sequential(ports, history)
      ensures id in Model().store ==> Model().store[id].id == id
    {
      EveryRunKeepsInv(ports, history);
    }
  }
}
