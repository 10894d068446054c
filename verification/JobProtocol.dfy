/**
 One job and everything in flight on it: the submit that creates it, any number of cancels,
 and any number of runner attempts, duplicates included. Each works through its store calls
 one at a time, so any other may act in between; any of them may crash at any call, and time
 passes freely. Jobs share no keys, so each job is a machine of its own.
 */
module JobProtocol {
  import opened Wrappers
  import opened Schemas
  import opened JobKeys

  datatype SubmitPc = Stage | Create | Enqueue | Rollback | MarkFailed

  datatype CancelPc = Read | Purge(seen: JobStatus) | Flag(seen: JobStatus) | Finalize

  datatype RunOutcome = Returned | Retry | Raised | Crashed

  /**
   Where a runner attempt stands; `rec` is the record that entering RUNNING returned and
   `acceptedAt` the moment the agent's answer was accepted.
   */
  datatype RunPc =
    | Fetch
    | CheckFlag
    | Discard
    | Enter
    | Resolve(rec: JobRecord)
    | Stream(rec: JobRecord)
    | StepCheck(rec: JobRecord, tool: Option<string>)
    | StepWrite(rec: JobRecord, tool: Option<string>)
    | Persist(rec: JobRecord, output: AgentResult, acceptedAt: int, next: nat, acc: seq<ProposedAction>)
    | Publish(rec: JobRecord, output: AgentResult, acc: seq<ProposedAction>)
    | Complete(rec: JobRecord)
    | Fail(code: ErrorCode)
    | Abort
    | Ended(outcome: RunOutcome)

  datatype Proc =
    | Submit(submitPc: SubmitPc)
    | Cancel(cancelPc: CancelPc)
    | Run(attempt: nat, writes: nat, pc: RunPc)
    | Over

  /** How the next call of a process turns out, where the store alone does not decide it. */
  datatype Choice =
    | Go
    | Crash
    | Torn
    | Refuse
    | Throw
    | TimeOut
    | Yield(tool: Option<string>)
    | Finish(output: AgentResult)
    | Mint(id: string)

  datatype SavedResult = SavedResult(output: AgentResult, doc: JobResultDoc, savedAt: int)

  /** What has happened to the job so far; `answered` tells when the answer behind a stored proposal was accepted. */
  datatype Log = Log(
    submitted: JobRecord,
    ciphertext: string,
    stagedAt: Option<int>,
    createdAt: Option<int>,
    torn: bool,
    results: seq<SavedResult>,
    stored: map<string, StoredProposal>,
    answered: map<string, int>)

  datatype Shared = Shared(keys: JobKeys, proposals: map<string, Entry<StoredProposal>>, now: int, log: Log)

  datatype Job = Job(sh: Shared, procs: map<nat, Proc>)

  // ---- Store calls on the shared state ----

  function Do(sh: Shared, to: JobStatus, attempt: Option<nat>, error: Option<ErrorCode>)
    : Result<(Shared, JobRecord), TransitionError>
  {
    match Transition(sh.keys, sh.now, to, attempt, error)
    case Ok(r) => Ok((sh.(keys := AfterTransition(sh.keys, r)), r))
    case Err(e) => Err(e)
  }

  /** The shared state after a transition whose caller ignores the outcome. */
  function Attempted(sh: Shared, to: JobStatus, error: Option<ErrorCode>): Shared {
    match Do(sh, to, None, error)
    case Ok((moved, _)) => moved
    case Err(_) => sh
  }

  /** A crash inside a terminal transition: the record is written, the purge never happens. */
  function TornTransition(sh: Shared, to: JobStatus, error: Option<ErrorCode>): Shared {
    match Transition(sh.keys, sh.now, to, None, error)
    case Ok(r) => sh.(keys := SaveJob(sh.keys, r), log := sh.log.(torn := true))
    case Err(_) => sh
  }

  // ---- Submit ----

  function StepSubmit(env: Env, sh: Shared, pc: SubmitPc, c: Choice): (Shared, Proc) {
    if c.Crash? || c.Throw? then (sh, Over) else
    match pc
    case Stage =>
      if c.Refuse? then (sh, Over)
      else (sh.(keys := StageToken(env.settings, sh.keys, sh.now, sh.log.ciphertext),
                log := sh.log.(stagedAt := Some(sh.now))), Submit(Create))
    case Create =>
      (sh.(keys := CreateJob(env.settings, sh.keys, sh.now, sh.log.submitted),
           log := sh.log.(createdAt := Some(sh.now))), Submit(Enqueue))
    case Enqueue => (sh, if c.Refuse? then Submit(Rollback) else Over)
    case Rollback => (sh.(keys := PurgeToken(sh.keys)), Submit(MarkFailed))
    case MarkFailed =>
      (if c.Torn? then TornTransition(sh, Failed, Some(DependencyUnavailable))
       else Attempted(sh, Failed, Some(DependencyUnavailable)), Over)
  }

  // ---- Cancel, after the caller has been authorised ----

  function StepCancel(env: Env, sh: Shared, pc: CancelPc, c: Choice): (Shared, Proc) {
    if c.Crash? || c.Throw? then (sh, Over) else
    match pc
    case Read =>
      var r := Live(sh.keys.record, sh.now);
      (sh, if r.None? || Terminal(r.value.status) then Over else Cancel(Purge(r.value.status)))
    case Purge(seen) => (sh.(keys := PurgeToken(sh.keys)), Cancel(Flag(seen)))
    case Flag(seen) =>
      (sh.(keys := RequestCancel(env.settings, sh.keys, sh.now)), if seen.Queued? then Cancel(Finalize) else Over)
    case Finalize =>
      (if c.Torn? then TornTransition(sh, Cancelled, None) else Attempted(sh, Cancelled, None), Over)
  }

  // ---- Runner ----

  /** The failure funnel: retry while attempts remain, otherwise fail the job. */
  function Funnel(attempt: nat, rec: JobRecord): RunPc {
    if attempt < rec.maxAttempts then Ended(Retry) else Fail(InternalError)
  }

  /** Inside the runner's `try` block, where every exception is caught. */
  predicate Guarded(pc: RunPc) {
    pc.Resolve? || pc.Stream? || pc.StepCheck? || pc.StepWrite? || pc.Persist? || pc.Publish? || pc.Complete?
  }

  function MakeAction(env: Env, rec: JobRecord, a: AgentAction, id: string, expiresAt: int): ProposedAction {
    ProposedAction(id, a.actionType, a.target, a.payload, a.preview, a.preconditions, expiresAt,
                   env.adapter.editableFields(a.actionType), rec.correlationId)
  }

  function MakeStored(rec: JobRecord, a: ProposedAction): StoredProposal {
    StoredProposal(a, rec.jobId, rec.sessionId, rec.consumerId, rec.principalHash)
  }

  function SaveProposal(env: Env, sh: Shared, p: StoredProposal, acceptedAt: int): Shared {
    sh.(proposals := sh.proposals[p.action.actionId := Entry(p, sh.now + env.settings.proposalTtl)],
        log := sh.log.(stored := sh.log.stored[p.action.actionId := p],
                       answered := sh.log.answered[p.action.actionId := acceptedAt]))
  }

  predicate Fresh(sh: Shared, id: string) {
    id !in sh.proposals && id !in sh.log.stored
  }

  /** Storing the next candidate that validates; the others are dropped. */
  function StepPersist(env: Env, sh: Shared, pc: RunPc, c: Choice): (Shared, RunPc)
    requires pc.Persist?
  {
    var Persist(rec, output, acceptedAt, next, acc) := pc;
    if next >= |output.proposedActions| then (sh, Publish(rec, output, acc))
    else
      var a := output.proposedActions[next];
      if !env.adapter.validate(a.actionType, a.payload).Valid?
      then (sh, Persist(rec, output, acceptedAt, next + 1, acc))
      else if c.Mint? && Fresh(sh, c.id) then
        var action := MakeAction(env, rec, a, c.id, acceptedAt + env.settings.proposalTtl);
        (SaveProposal(env, sh, MakeStored(rec, action), acceptedAt),
         Persist(rec, output, acceptedAt, next + 1, acc + [action]))
      else (sh, pc)
  }

  function Publication(env: Env, sh: Shared, output: AgentResult, acc: seq<ProposedAction>): Shared {
    var doc := JobResultDoc(Findings(output.summary, output.sources, output.details), acc);
    sh.(keys := SaveResult(env.settings, sh.keys, sh.now, doc),
        log := sh.log.(results := sh.log.results + [SavedResult(output, doc, sh.now)]))
  }

  function StepRun(env: Env, sh: Shared, attempt: nat, writes: nat, pc: RunPc, c: Choice): (Shared, Proc) {
    var at := (next: RunPc) => Run(attempt, writes, next);
    if pc.Ended? then (sh, at(pc))
    else if c.Crash? then (sh, at(Ended(Crashed)))
    else if c.Throw? then (sh, at(if Guarded(pc) then Funnel(attempt, pc.rec) else Ended(Raised)))
    else if c.TimeOut? && Guarded(pc) then (sh, at(Fail(JobTimeout)))
    else
      match pc
      case Fetch =>
        var r := Live(sh.keys.record, sh.now);
        (sh, at(if r.None? || Terminal(r.value.status) then Ended(Returned) else CheckFlag))
      case CheckFlag => (sh, at(if CancelRequested(sh.keys, sh.now) then Discard else Enter))
      case Discard =>
        if c.Torn? then (TornTransition(sh, Cancelled, None), at(Ended(Crashed)))
        else (match Do(sh, Cancelled, None, None)
              case Ok((moved, _)) => (moved, at(Ended(Returned)))
              case Err(_) => (sh, at(Ended(Raised))))
      case Enter =>
        (match Do(sh, Running, Some(attempt), None)
         case Ok((moved, rec)) => (moved, at(Resolve(rec)))
         case Err(_) => (sh, at(Ended(Raised))))
      case Resolve(rec) =>
        (sh, at(if env.adapter.userPat && Live(sh.keys.token, sh.now).None? then Funnel(attempt, rec) else Stream(rec)))
      case Stream(rec) =>
        (match c
         case Yield(tool) => (sh, at(StepCheck(rec, tool)))
         case Finish(output) => (sh, at(Persist(rec, output, sh.now, 0, [])))
         case _ => (sh, at(pc)))
      case StepCheck(rec, tool) =>
        (sh, at(if CancelRequested(sh.keys, sh.now) then Abort else StepWrite(rec, tool)))
      case StepWrite(rec, tool) =>
        (sh.(keys := SetProgress(sh.keys, sh.now, tool, writes + 1)), Run(attempt, writes + 1, Stream(rec)))
      case Persist(_, _, _, _, _) =>
        var (stored, next) := StepPersist(env, sh, pc, c);
        (stored, at(next))
      case Publish(rec, output, acc) => (Publication(env, sh, output, acc), at(Complete(rec)))
      case Complete(rec) =>
        if c.Torn? then (TornTransition(sh, Completed, None), at(Ended(Crashed)))
        else (match Do(sh, Completed, None, None)
              case Ok((moved, _)) => (moved, at(Ended(Returned)))
              case Err(_) => (sh, at(Funnel(attempt, rec))))
      case Fail(code) =>
        if c.Torn? then (TornTransition(sh, Failed, Some(code)), at(Ended(Crashed)))
        else (match Do(sh, Failed, None, Some(code))
              case Ok((moved, _)) => (moved, at(Ended(Returned)))
              case Err(_) => (sh, at(Ended(Raised))))
      case Abort =>
        if c.Torn? then (TornTransition(sh, Cancelled, None), at(Ended(Crashed)))
        else (match Do(sh, Cancelled, None, None)
              case Ok((moved, _)) => (moved, at(Ended(Returned)))
              case Err(_) => (sh, at(Ended(Raised))))
  }

  // ---- Runs ----

  datatype Action =
    | Tick(seconds: nat)
    | StartCancel(pid: nat)
    | StartRun(pid: nat, attempt: nat)
    | Advance(pid: nat, choice: Choice)
    | OtherProposal(id: string, entry: Entry<StoredProposal>)
    | DropProposal(id: string)

  function StepProc(env: Env, sh: Shared, p: Proc, c: Choice): (Shared, Proc) {
    match p
    case Submit(pc) => StepSubmit(env, sh, pc, c)
    case Cancel(pc) => StepCancel(env, sh, pc, c)
    case Run(attempt, writes, pc) => StepRun(env, sh, attempt, writes, pc, c)
    case Over => (sh, Over)
  }

  function Act(env: Env, s: Job, a: Action): Job {
    match a
    case Tick(d) => s.(sh := s.sh.(now := s.sh.now + d))
    case StartCancel(pid) => if pid in s.procs then s else s.(procs := s.procs[pid := Cancel(Read)])
    case StartRun(pid, attempt) => if pid in s.procs then s else s.(procs := s.procs[pid := Run(attempt, 0, Fetch)])
    case Advance(pid, c) =>
      if pid !in s.procs then s
      else
        var (sh, p) := StepProc(env, s.sh, s.procs[pid], c);
        Job(sh, s.procs[pid := p])
    case OtherProposal(id, entry) =>
      if Fresh(s.sh, id) then s.(sh := s.sh.(proposals := s.sh.proposals[id := entry])) else s
    case DropProposal(id) => s.(sh := s.sh.(proposals := s.sh.proposals - {id}))
  }

  function Exec(env: Env, s: Job, actions: seq<Action>): Job
    decreases |actions|
  {
    if actions == [] then s else Exec(env, Act(env, s, actions[0]), actions[1..])
  }

  /** A record as submit builds it. */
  predicate FreshRecord(r: JobRecord) {
    r.status == Queued && r.attempt == 0 && r.startedAt == None && r.finishedAt == None && r.error == None
  }

  /** Submit has built the record of a new job id; nothing is stored yet. */
  function Initial(env: Env, r: JobRecord, ciphertext: string): Job {
    Job(Shared(NO_KEYS, map[], r.createdAt, Log(r, ciphertext, None, None, false, [], map[], map[])),
        map[0 := Submit(if env.adapter.userPat then Stage else Create)])
  }
}
