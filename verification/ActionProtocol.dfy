/**
 Stored proposals from the worker's save to their end: runs of execute and reject requests
 with any keys, edits, owners and downstream outcomes, the passing of time, and crashes of
 the execute handler. Requests are handled one after another.
 */
module ActionProtocol {
  import opened Wrappers
  import opened Json
  import opened Schemas
  import opened JobKeys
  import opened RedisStore
  import Hash = RequestHash
  import opened ResearchApi

  datatype ExecuteRequest = ExecuteRequest(
    actionId: string, approved: Dict, key: string, caller: Caller, trace: Trace)

  // ---- Approved against proposed ----

  /** Python's `dict.get`: a missing key reads as null. */
  function Get(d: Dict, key: string): Json {
    if key in d then d[key] else Null
  }

  function UnexpectedFields(action: ProposedAction, approved: Dict): set<string> {
    set key | key in action.payload.Keys + approved.Keys
              && key !in action.editableFields && !PyEq(Get(action.payload, key), Get(approved, key))
  }

  // ---- The decision before anything downstream happens ----

  datatype Verdict =
    | Replay(response: ExecuteResponse)
    | Decline(code: ErrorCode)
    | Overdue
    | Cleared(stored: StoredProposal)

  /** Why the approved payload may not be executed, if there is a reason. */
  function PayloadRefusal(env: Env, action: ProposedAction, approved: Dict): Option<ErrorCode> {
    if UnexpectedFields(action, approved) != {} then Some(PayloadMismatch)
    else
      match env.adapter.validate(action.actionType, approved)
      case Unsupported => Some(UnsupportedAction)
      case Invalid => Some(ValidationError)
      case Valid => None
  }

  /** What a request that is no replay is told before any downstream call. */
  function Examine(env: Env, proposals: map<string, Entry<StoredProposal>>, vettedAt: int, q: ExecuteRequest): Verdict {
    var p := AuthorizedProposal(env, Lookup(proposals, q.actionId), vettedAt, q.caller);
    if p.None? then Decline(ActionExpired)
    else if p.value.action.expiresAt <= vettedAt then Overdue
    else
      match PayloadRefusal(env, p.value.action, q.approved)
      case Some(code) => Decline(code)
      case None => Cleared(p.value)
  }

  /** The key is looked up first: a recorded request is replayed whatever became of its proposal. */
  function Judge(env: Env, idem: map<string, Entry<IdempotencyRecord>>, proposals: map<string, Entry<StoredProposal>>,
                 askedAt: int, vettedAt: int, q: ExecuteRequest): Verdict {
    var existing := Live(Lookup(idem, q.key), askedAt);
    if existing.None? then Examine(env, proposals, vettedAt, q)
    else if existing.value.requestHash != Hash.HashInput(q.actionId, q.approved) then Decline(IdempotentReplay)
    else Replay(existing.value.response.(idempotentReplay := true, correlationId := CorrelationOf(q.trace)))
  }

  // ---- The world ----

  /** A call of the adapter's mutation, a recorded outcome, a rejection. */
  datatype Event =
    | Called(key: string, action: ProposedAction, approved: Dict, vettedAt: int, done: bool)
    | Recorded(usedKey: string, actionId: string, payload: Dict, record: IdempotencyRecord, expiry: int)
    | Rejected(rejectedId: string)

  /** `saved` is every proposal ever stored; `log` is what has happened to them. */
  datatype World = World(
    proposals: map<string, Entry<StoredProposal>>,
    idem: map<string, Entry<IdempotencyRecord>>,
    now: int,
    saved: map<string, Entry<StoredProposal>>,
    log: seq<Event>)

  function Empty(now: int): World {
    World(map[], map[], now, map[], [])
  }

  /** The live calls of a request: how they end and the time until the outcome is recorded. */
  datatype Downstream = Downstream(check: CheckOutcome, exec: ExecOutcome, took: nat)

  /**
   Where the handler crashes, or an exception escapes it: before it calls the mutation, after
   that but before the outcome is recorded, or between recording it and consuming the proposal.
   */
  datatype Halt = Never | Early | Midway | Late

  type Reply = Option<Result<ExecuteResponse, ErrorCode>>

  function Response(q: ExecuteRequest, p: StoredProposal, exec: ExecOutcome): ExecuteResponse
    requires exec.Done?
  {
    ExecuteResponse(q.actionId, exec.result, exec.resourceUrl, false, Joined(q.trace, p))
  }

  /** Records the outcome, then consumes the proposal. */
  function Settle(env: Env, w: World, q: ExecuteRequest, p: StoredProposal, exec: ExecOutcome, halt: Halt)
    : (World, Reply)
    requires exec.Done?
  {
    var response := Response(q, p, exec);
    var record := IdempotencyRecord(Hash.HashInput(q.actionId, q.approved), response);
    var expiry := w.now + env.settings.idempotencyTtl;
    var recorded := w.(idem := w.idem[q.key := Entry(record, expiry)],
                       log := w.log + [Recorded(q.key, q.actionId, q.approved, record, expiry)]);
    if halt.Late? then (recorded, None)
    else (recorded.(proposals := w.proposals - {q.actionId}), Some(Ok(response)))
  }

  function CallAdapter(env: Env, w: World, q: ExecuteRequest, p: StoredProposal, d: Downstream, halt: Halt)
    : (World, Reply)
  {
    match d.check
    case CheckFailed => (w.(now := w.now + d.took), Some(Err(DownstreamError)))
    case Drifted => (w.(now := w.now + d.took), Some(Err(StaleTarget)))
    case Fine =>
      var called := w.(now := w.now + d.took,
                       log := w.log + [Called(q.key, p.action, q.approved, w.now, d.exec.Done?)]);
      if halt.Midway? then (called, None)
      else
        match d.exec
        case NotSupported => (called, Some(Err(UnsupportedAction)))
        case BadPayload => (called, Some(Err(InternalError)))
        case Refused => (called, Some(Err(DownstreamError)))
        case Done(_, _) => Settle(env, called, q, p, d.exec, halt)
  }

  /** One execute request from start to end; `waited` passes between the two lookups. */
  function Perform(env: Env, w: World, q: ExecuteRequest, waited: nat, d: Downstream, halt: Halt): (World, Reply) {
    var vetted := w.(now := w.now + waited);
    if halt.Early? then (vetted, None)
    else
      match Judge(env, w.idem, w.proposals, w.now, vetted.now, q)
      case Replay(response) => (vetted, Some(Ok(response)))
      case Decline(code) => (vetted, Some(Err(code)))
      case Overdue => (vetted.(proposals := w.proposals - {q.actionId}), Some(Err(ActionExpired)))
      case Cleared(p) => CallAdapter(env, vetted, q, p, d, halt)
  }

  // ---- Runs ----

  datatype Op =
    | Tick(seconds: nat)
    | Save(p: StoredProposal)
    | Execute(q: ExecuteRequest, waited: nat, d: Downstream, halt: Halt)
    | Reject(id: string, caller: Caller, trace: Trace)

  /** What the worker guarantees of every proposal it saves. */
  predicate FromWorker(env: Env, now: int, p: StoredProposal) {
    && p.action.editableFields == env.adapter.editableFields(p.action.actionType)
    && env.adapter.validate(p.action.actionType, p.action.payload).Valid?
    && p.action.expiresAt <= now + env.settings.proposalTtl
  }

  function Act(env: Env, w: World, op: Op): World {
    match op
    case Tick(n) => w.(now := w.now + n)
    case Save(p) =>
      var id := p.action.actionId;
      if id in w.saved || !FromWorker(env, w.now, p) then w
      else
        var entry := Entry(p, w.now + env.settings.proposalTtl);
        w.(proposals := w.proposals[id := entry], saved := w.saved[id := entry])
    case Execute(q, waited, d, halt) => Perform(env, w, q, waited, d, halt).0
    case Reject(id, caller, trace) =>
      if RejectResult(env, Lookup(w.proposals, id), w.now, caller, id, trace).1.Ok?
      then w.(proposals := w.proposals - {id}, log := w.log + [Rejected(id)])
      else w
  }

  function Run(env: Env, w: World, ops: seq<Op>): World
    decreases |ops|
  {
    if ops == [] then w else Run(env, Act(env, w, ops[0]), ops[1..])
  }
}
