/**
 The query service with every call split at its awaits. A suspended call holds the record it read before the await,
 and writes back what it computed from that record, whatever the store holds by then.
 */
module QueryMachine {
  import opened Wrappers
  import opened Query
  import opened Quorum

  /** Which optional ports the service was given. */
  datatype Ports = Ports(escrow: bool, preimages: bool, frost: bool)

  /** What `submitEscrowResult` returns. */
  datatype Outcome = Outcome(ok: bool, preimage: Option<string>, signature: Option<seq<string>>)

  datatype Task =
    | AwaitAmount(q: Record, provider: string, token: Option<string>)
    | AwaitLock(q: Record, provider: string, updates: Updates)
    | AwaitSimple(q: Record, result: string, panel: Panel)
    | AwaitVerdict(q: Record, submitter: string, panel: Panel)
    | AwaitRead(id: string, hash: string)
    | AwaitDelete(id: string, hash: string, preimage: string)
    | AwaitSignature(id: string, group: string)

  datatype Event =
    | Created(q: Record)
    | Issued(hash: string, preimage: string)
    | Chosen(id: string, provider: string)
    | Changed(id: string, from: Status, to: Status)
    | Verified(task: nat, id: string, submitter: string, panel: Panel, answers: seq<bool>)
    | Read(task: nat, hash: string, found: bool)
    | Replied(task: nat, signed: bool)
    | Returned(task: nat, id: string, outcome: Outcome)

  datatype State = State(
    store: map<string, Record>,
    preimages: map<string, string>,
    order: seq<string>,
    tasks: map<nat, Task>,
    next: nat,
    used: set<string>,
    issued: set<string>,
    log: seq<Event>)

  function Init(): State { State(map[], map[], [], map[], 0, {}, {}, []) }

  datatype Reply =
    | Amount(valid: bool, sats: Option<int>)
    | Lock(ok: bool)
    | Answers(answers: seq<bool>)
    | Tick
    | Signatures(signatures: Option<seq<string>>)
    | Throws

  datatype Action =
    | DoCreate(id: string, options: Options, now: int)
    | DoIssue(hash: string, preimage: string)
    | DoRegister(name: string)
    | DoExpire(id: string, now: int)
    | DoPurge(id: string)
    | DoClear
    | DoCancel(id: string)
    | DoOffer(id: string, offer: Offer)
    | DoBegin(id: string)
    | DoRecord(id: string, result: string, provider: string, now: int)
    | DoComplete(id: string, passed: bool, oracle: Option<string>)
    | StartSelect(id: string, provider: string, token: Option<string>)
    | StartSimple(id: string, result: string, oracle: Option<string>, now: int)
    | StartEscrow(id: string, result: string, provider: string, oracle: Option<string>, now: int)
    | Resume(task: nat, reply: Reply, now: int)

  // ---- Steps ----

  function Log(s: State, e: Event): State { s.(log := s.log + [e]) }

  /** Store a record; a changed status is logged. */
  function Write(s: State, q: Record): State {
    var t := s.(store := s.store[q.id := q]);
    if q.id in s.store && s.store[q.id].status != q.status
    then Log(t, Changed(q.id, s.store[q.id].status, q.status))
    else t
  }

  function Commit(s: State, r: Result<Record, Refusal>): State {
    if r.Ok? then Write(s, r.value) else s
  }

  function Spawn(s: State, task: Task): State { s.(tasks := s.tasks[s.next := task], next := s.next + 1) }

  function Become(s: State, t: nat, task: Task): State { s.(tasks := s.tasks[t := task]) }

  function End(s: State, t: nat): State { s.(tasks := s.tasks - {t}) }

  function Return(s: State, t: nat, id: string, o: Outcome): State { Log(End(s, t), Returned(t, id, o)) }

  /** The commit of a selection, from the record read at its start. */
  function CommitSelection(s: State, q: Record, provider: string, u: Updates): State {
    var r := SelectProvider(q, provider, u);
    if r.Ok? then Write(Log(s, Chosen(q.id, provider)), r.value) else s
  }

  /** The escrow reference a selection checks: the stored reference, else the stored token, else the given token. */
  function EscrowRef(e: Escrow, token: Option<string>): Option<string> {
    if e.reference.Some? then e.reference else if e.token.Some? then e.token else token
  }

  predicate HasHash(e: Escrow) { e.settlement.Htlc? && e.settlement.hash != "" }

  function BeginSelect(ports: Ports, s: State, q: Record, provider: string, token: Option<string>): State {
    if SelectProvider(q, provider, Updates(None, None)).Err? || q.escrow.None? then s
    else
      var checked := Present(EscrowRef(q.escrow.value, token));
      if checked && (NonZero(q.lockSats) || HasHash(q.escrow.value)) && !ports.escrow then s
      else if checked && NonZero(q.lockSats) then Spawn(s, AwaitAmount(q, provider, token))
      else if checked && HasHash(q.escrow.value) then Spawn(s, AwaitLock(q, provider, Updates(token, None)))
      else CommitSelection(s, q, provider, Updates(token, None))
  }

  function BeginSimple(s: State, q: Record, result: string, oracle: Option<string>, now: int): State {
    if !q.status.Pending? then s
    else if q.expiresAt < now then Write(s, q.(status := Expired, payment := Cancelled))
    else Spawn(s, AwaitSimple(q, result, Choose(s.order, q.oracleIds, q.quorum, oracle)))
  }

  function BeginEscrow(s: State, q: Record, result: string, provider: string, oracle: Option<string>, now: int): State {
    var r := RecordResult(q, result, provider, now);
    if r.Err? then Log(s.(next := s.next + 1), Returned(s.next, q.id, Outcome(false, None, None)))
    else Spawn(Write(s, r.value), AwaitVerdict(r.value, provider, Choose(s.order, q.oracleIds, q.quorum, oracle)))
  }

  function Attestations(ids: seq<string>, answers: seq<bool>): seq<Attestation>
    requires |answers| == |ids|
  {
    seq(|ids|, i requires 0 <= i < |ids| => Attestation(ids[i], answers[i]))
  }

  /** After the verdict on an escrow submission: the final record is written, then the settlement is fetched. */
  function Settle(ports: Ports, s: State, t: nat, q: Record, passed: bool): State {
    if passed && q.escrow.Some? && HasHash(q.escrow.value) && ports.preimages then
      Become(s, t, AwaitRead(q.id, q.escrow.value.settlement.hash))
    else if passed && q.escrow.Some? && q.escrow.value.settlement.Frost? && ports.frost then
      Become(s, t, AwaitSignature(q.id, q.escrow.value.settlement.group))
    else Return(s, t, q.id, Outcome(passed, None, None))
  }

  function ContinueAmount(s: State, t: nat, task: Task, valid: bool, sats: Option<int>): State
    requires task.AwaitAmount?
  {
    var u := Updates(task.token, Some(sats));
    if !valid then End(s, t)
    else if task.q.escrow.Some? && HasHash(task.q.escrow.value) then Become(s, t, AwaitLock(task.q, task.provider, u))
    else CommitSelection(End(s, t), task.q, task.provider, u)
  }

  function ContinueSimple(s: State, t: nat, task: Task, answers: seq<bool>, now: int): State
    requires task.AwaitSimple? && |answers| == |PanelIds(task.panel)|
  {
    var passed := Passes(task.panel, answers);
    if !passed && answers == [] then End(s, t)
    else Write(End(s, t), Finalize(task.q, passed, Attestations(PanelIds(task.panel), answers)).(
                            result := Some(task.result), submittedAt := Some(now)))
  }

  function ContinueVerdict(ports: Ports, s: State, t: nat, task: Task, answers: seq<bool>): State
    requires task.AwaitVerdict? && |answers| == |PanelIds(task.panel)|
  {
    var passed := Passes(task.panel, answers);
    var final := Finalize(task.q, passed, Attestations(PanelIds(task.panel), answers));
    Settle(ports, Write(Log(s, Verified(t, task.q.id, task.submitter, task.panel, answers)), final), t, final, passed)
  }

  function ContinueRead(s: State, t: nat, task: Task): State
    requires task.AwaitRead?
  {
    if Stored(s, task.hash) then
      Become(Log(s, Read(t, task.hash, true)), t, AwaitDelete(task.id, task.hash, s.preimages[task.hash]))
    else Return(Log(s, Read(t, task.hash, false)), t, task.id, Outcome(true, None, None))
  }

  /** A non-empty preimage is stored for the hash. */
  predicate Stored(s: State, hash: string) { hash in s.preimages && s.preimages[hash] != "" }

  function ContinueDelete(s: State, t: nat, task: Task): State
    requires task.AwaitDelete?
  {
    Return(s.(preimages := s.preimages - {task.hash}), t, task.id, Outcome(true, Some(task.preimage), None))
  }

  function ContinueSignature(s: State, t: nat, task: Task, signatures: Option<seq<string>>): State
    requires task.AwaitSignature?
  {
    Return(Log(s, Replied(t, signatures.Some?)), t, task.id, Outcome(true, None, signatures))
  }

  /** A rejected promise ends the call without a write; only a failed signature request is caught. */
  function Continue(ports: Ports, s: State, t: nat, task: Task, reply: Reply, now: int): State {
    if reply.Throws? then
      if task.AwaitSignature? then ContinueSignature(s, t, task, None) else End(s, t)
    else
      match task
      case AwaitAmount(_, _, _) => if reply.Amount? then ContinueAmount(s, t, task, reply.valid, reply.sats) else s
      case AwaitLock(q, provider, u) =>
        if !reply.Lock? then s else if !reply.ok then End(s, t) else CommitSelection(End(s, t), q, provider, u)
      case AwaitSimple(_, _, panel) =>
        if reply.Answers? && |reply.answers| == |PanelIds(panel)|
        then ContinueSimple(s, t, task, reply.answers, now) else s
      case AwaitVerdict(_, _, panel) =>
        if reply.Answers? && |reply.answers| == |PanelIds(panel)|
        then ContinueVerdict(ports, s, t, task, reply.answers) else s
      case AwaitRead(_, _) => if reply.Tick? then ContinueRead(s, t, task) else s
      case AwaitDelete(_, _, _) => if reply.Tick? then ContinueDelete(s, t, task) else s
      case AwaitSignature(_, _) => if reply.Signatures? then ContinueSignature(s, t, task, reply.signatures) else s
  }

  predicate Synchronous(a: Action) {
    a.DoExpire? || a.DoCancel? || a.DoOffer? || a.DoBegin? || a.DoRecord? || a.DoComplete?
  }

  /** What a synchronous call makes of the stored record. */
  function Move(q: Record, a: Action): Result<Record, Refusal>
    requires Synchronous(a)
  {
    match a
    case DoExpire(_, now) => Expire(q, now)
    case DoCancel(_) => Cancel(q)
    case DoOffer(_, offer) => AddOffer(q, offer)
    case DoBegin(_) => BeginWork(q)
    case DoRecord(_, result, provider, now) => RecordResult(q, result, provider, now)
    case DoComplete(_, passed, oracle) => CompleteVerification(q, passed, oracle)
  }

  function Update(s: State, a: Action): State
    requires Synchronous(a)
  {
    if a.id in s.store then Commit(s, Move(s.store[a.id], a)) else s
  }

  /** Ids are random UUIDs and hashes come from random preimages: neither is drawn twice. */
  function DoCreateStep(s: State, id: string, o: Options, now: int): State {
    var r := Create(id, o, now);
    if id in s.used || r.Err? then s
    else Log(s.(store := s.store[id := r.value], used := s.used + {id}), Created(r.value))
  }

  function Step(ports: Ports, s: State, a: Action): State {
    match a
    case DoCreate(id, o, now) => DoCreateStep(s, id, o, now)
    case DoIssue(hash, preimage) =>
      if hash in s.issued then s
      else Log(s.(preimages := s.preimages[hash := preimage], issued := s.issued + {hash}), Issued(hash, preimage))
    case DoRegister(name) => if name in s.order then s else s.(order := s.order + [name])
    case DoPurge(id) => if id in s.store && s.store[id].status.Expired? then s.(store := s.store - {id}) else s
    case DoClear => s.(store := map[])
    case StartSelect(id, provider, token) =>
      if id in s.store then BeginSelect(ports, s, s.store[id], provider, token) else s
    case StartSimple(id, result, oracle, now) =>
      if id in s.store then BeginSimple(s, s.store[id], result, oracle, now) else s
    case StartEscrow(id, result, provider, oracle, now) =>
      if id in s.store then BeginEscrow(s, s.store[id], result, provider, oracle, now)
      else Log(s.(next := s.next + 1), Returned(s.next, id, Outcome(false, None, None)))
    case Resume(t, reply, now) => if t in s.tasks then Continue(ports, s, t, s.tasks[t], reply, now) else s
    case _ => Update(s, a)
  }

  function Exec(ports: Ports, s: State, actions: seq<Action>): State {
    if actions == [] then s else Step(ports, Exec(ports, s, actions[..|actions| - 1]), actions[|actions| - 1])
  }
}
