/**
 Records and settings of the service. Times and lifetimes are whole seconds; message
 texts and free-form task input are not kept.
 */
module Schemas {
  import opened Wrappers
  import opened Json

  datatype JobStatus = Queued | Running | Completed | Failed | Cancelled

  predicate Terminal(s: JobStatus) {
    s.Completed? || s.Failed? || s.Cancelled?
  }

  datatype ErrorCode =
    | ActionExpired
    | PayloadMismatch
    | StaleTarget
    | IdempotentReplay
    | JobNotFound
    | JobTimeout
    | UnsupportedAction
    | ValidationError
    | DownstreamError
    | DependencyUnavailable
    | InternalError

  datatype JobProgress = JobProgress(lastTool: Option<string>, steps: nat)

  datatype JobRecord = JobRecord(
    jobId: string,
    sessionId: string,
    consumerId: string,
    principalHash: Option<string>,
    correlationId: string,
    createdAt: int,
    maxAttempts: nat,
    status: JobStatus,
    attempt: nat,
    startedAt: Option<int>,
    finishedAt: Option<int>,
    progress: JobProgress,
    error: Option<ErrorCode>)

  datatype Findings = Findings(summary: string, sources: seq<Dict>, details: Dict)

  /** An action as the agent proposes it. */
  datatype AgentAction = AgentAction(
    actionType: string, target: Dict, payload: Dict, preview: string, preconditions: Dict)

  datatype AgentResult = AgentResult(
    summary: string, sources: seq<Dict>, details: Dict, proposedActions: seq<AgentAction>)

  /** An action as it is offered for approval. */
  datatype ProposedAction = ProposedAction(
    actionId: string,
    actionType: string,
    target: Dict,
    payload: Dict,
    preview: string,
    preconditions: Dict,
    expiresAt: int,
    editableFields: set<string>,
    correlationId: string)

  datatype JobResultDoc = JobResultDoc(findings: Findings, proposedActions: seq<ProposedAction>)

  datatype StoredProposal = StoredProposal(
    action: ProposedAction,
    jobId: string,
    sessionId: string,
    consumerId: string,
    principalHash: Option<string>)

  datatype ExecuteResponse = ExecuteResponse(
    actionId: string,
    result: Dict,
    resourceUrl: Option<string>,
    idempotentReplay: bool,
    correlationId: string)

  datatype IdempotencyRecord = IdempotencyRecord(requestHash: string, response: ExecuteResponse)

  datatype Settings = Settings(
    resultTtl: nat,
    proposalTtl: nat,
    idempotencyTtl: nat,
    jobTimeout: nat,
    jobMaxAttempts: nat)

  /** What an adapter says of a payload before anything is stored or executed. */
  datatype Validation = Valid | Unsupported | Invalid

  /** The parts of a domain adapter the service core calls. */
  datatype Adapter = Adapter(
    userPat: bool,
    validate: (string, Dict) -> Validation,
    editableFields: string -> set<string>)

  datatype Env = Env(settings: Settings, adapter: Adapter)

  /** Who asks: the API key's consumer and the salted hash of the presented user token. */
  datatype Caller = Caller(consumerId: string, presentedHash: string)

  /** Jobs and proposals belong to a principal (user-token domains) or to a consumer. */
  predicate Owns(adapter: Adapter, caller: Caller, consumerId: string, principalHash: Option<string>) {
    if adapter.userPat then principalHash == Some(caller.presentedHash) else consumerId == caller.consumerId
  }

  /** The correlation header of a request, if it was sent, and the id minted when it is missing or empty. */
  datatype Trace = Trace(header: Option<string>, minted: string)

  function CorrelationOf(t: Trace): string {
    if t.header.Some? && t.header.value != "" then t.header.value else t.minted
  }

  /** Without the header a call on a proposal joins the research run that made it. */
  function Joined(t: Trace, p: StoredProposal): string {
    if t.header.None? then p.action.correlationId else CorrelationOf(t)
  }

  /** What an adapter's live precondition check comes to. */
  datatype CheckOutcome = Fine | Drifted | CheckFailed

  /** What an adapter's mutation comes to. */
  datatype ExecOutcome = Done(result: Dict, resourceUrl: Option<string>) | NotSupported | BadPayload | Refused
}
