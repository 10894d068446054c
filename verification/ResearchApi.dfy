/**
 The API's handlers that need no downstream call: submit, poll and cancel of jobs, reading
 and rejecting of proposed actions.
 */
module ResearchApi {
  import opened Wrappers
  import opened Schemas
  import opened JobKeys
  import opened RedisStore

  datatype StatusResponse = StatusResponse(
    jobId: string,
    status: JobStatus,
    sessionId: string,
    correlationId: string,
    createdAt: int,
    startedAt: Option<int>,
    finishedAt: Option<int>,
    attempt: nat,
    cancelRequested: bool,
    progress: Option<JobProgress>,
    findings: Option<Findings>,
    proposedActions: Option<seq<ProposedAction>>,
    error: Option<ErrorCode>)

  function Status(r: JobRecord, cancelRequested: bool): StatusResponse {
    StatusResponse(r.jobId, r.status, r.sessionId, r.correlationId, r.createdAt, r.startedAt, r.finishedAt,
                   r.attempt, cancelRequested, if r.status.Running? then Some(r.progress) else None,
                   None, None, r.error)
  }

  /** The job's record, for its owner; anyone else is told the same as when there is no job. */
  function AuthorizedJob(env: Env, k: JobKeys, now: int, caller: Caller): Option<JobRecord> {
    var r := Live(k.record, now);
    if r.Some? && Owns(env.adapter, caller, r.value.consumerId, r.value.principalHash) then r else None
  }

  function PollResult(env: Env, k: JobKeys, now: int, caller: Caller): Result<StatusResponse, ErrorCode> {
    var r := AuthorizedJob(env, k, now, caller);
    if r.None? then Err(JobNotFound)
    else
      var response := Status(r.value, CancelRequested(k, now));
      var doc := Live(k.result, now);
      Ok(if r.value.status.Completed? && doc.Some?
         then response.(findings := Some(doc.value.findings), proposedActions := Some(doc.value.proposedActions))
         else response)
  }

  function CancelResult(env: Env, k: JobKeys, now: int, caller: Caller): (JobKeys, Result<StatusResponse, ErrorCode>) {
    var r := AuthorizedJob(env, k, now, caller);
    if r.None? then (k, Err(JobNotFound))
    else
      var after := CancelKeys(env.settings, k, now);
      (after, Ok(if r.value.status.Queued? && after.record.Some? then Status(after.record.value.value, false)
                 else Status(r.value, !Terminal(r.value.status))))
  }

  datatype ActionResponse = ActionResponse(actionId: string, action: Option<ProposedAction>, correlationId: string)

  function AuthorizedProposal(env: Env, e: Option<Entry<StoredProposal>>, now: int, caller: Caller)
    : Option<StoredProposal>
  {
    var p := Live(e, now);
    if p.Some? && Owns(env.adapter, caller, p.value.consumerId, p.value.principalHash) then p else None
  }

  function GetActionResult(env: Env, e: Option<Entry<StoredProposal>>, now: int, caller: Caller,
                           actionId: string, trace: Trace): Result<ActionResponse, ErrorCode> {
    var p := AuthorizedProposal(env, e, now, caller);
    if p.None? then Err(ActionExpired)
    else Ok(ActionResponse(actionId, Some(p.value.action), Joined(trace, p.value)))
  }

  function RejectResult(env: Env, e: Option<Entry<StoredProposal>>, now: int, caller: Caller,
                        actionId: string, trace: Trace)
    : (Option<Entry<StoredProposal>>, Result<ActionResponse, ErrorCode>)
  {
    var p := AuthorizedProposal(env, e, now, caller);
    if p.None? then (e, Err(ActionExpired))
    else (None, Ok(ActionResponse(actionId, None, Joined(trace, p.value))))
  }

  // ---- The handlers over the store ----

  predicate Stored(store: Store, jobId: string)
    reads store
  {
    jobId in store.jobs ==> store.jobs[jobId].value.jobId == jobId
  }

  /**
   Stages the token, creates the record and enqueues; a queue failure is rolled back. On
   acceptance exactly the token and the queued record are stored; otherwise no token is left.
   */
  method SubmitResearch(store: Store, env: Env, record: JobRecord, ciphertext: Option<string>, queueUp: bool)
    returns (r: Result<string, ErrorCode>)
    requires env.settings == store.settings && JobTtl(env.settings) > 0
    requires store.Of(record.jobId) == NO_KEYS
    requires record.status.Queued? && record.createdAt == store.now
    modifies store
    ensures store.OnlyJob(record.jobId)
    ensures r.Ok? <==> (env.adapter.userPat ==> ciphertext.Some?) && queueUp
    ensures r.Err? ==> r.error == DependencyUnavailable && store.Of(record.jobId).token.None?
    ensures var k := store.Of(record.jobId);
            if r.Ok? then
              && k == JobKeys(Some(Entry(record, store.now + JobTtl(env.settings))), k.token, None, None)
              && k.token == (if env.adapter.userPat
                             then Some(Entry(ciphertext.value, store.now + TokenTtl(env.settings)))
                             else None)
            else if env.adapter.userPat && ciphertext.None? then k == NO_KEYS
            else
              var failed := record.(status := Failed, error := Some(DependencyUnavailable),
                                    finishedAt := Some(store.now));
              k == JobKeys(Some(Entry(failed, store.now + JobTtl(env.settings))), None, None, None)
  {
    var jobId := record.jobId;
    if env.adapter.userPat {
      if ciphertext.None? {
        return Err(DependencyUnavailable);
      }
      store.StageToken(jobId, ciphertext.value);
    }
    store.CreateJob(record);
    if !queueUp {
      store.PurgeToken(jobId);
      var failed := store.Transition(jobId, Failed, None, Some(DependencyUnavailable));
      return Err(DependencyUnavailable);
    }
    return Ok(jobId);
  }

  method FindAuthorized(store: Store, env: Env, jobId: string, caller: Caller) returns (r: Option<JobRecord>)
    ensures r == AuthorizedJob(env, store.Of(jobId), store.now, caller)
  {
    r := store.GetJob(jobId);
    if r.Some? && !Owns(env.adapter, caller, r.value.consumerId, r.value.principalHash) {
      r := None;
    }
  }

  method PollResearch(store: Store, env: Env, jobId: string, caller: Caller)
    returns (r: Result<StatusResponse, ErrorCode>)
    ensures r == PollResult(env, store.Of(jobId), store.now, caller)
  {
    var record := FindAuthorized(store, env, jobId, caller);
    if record.None? {
      return Err(JobNotFound);
    }
    var flagged := store.IsCancelRequested(jobId);
    var response := Status(record.value, flagged);
    if record.value.status.Completed? {
      var doc := store.GetResult(jobId);
      if doc.Some? {
        response := response.(findings := Some(doc.value.findings), proposedActions := Some(doc.value.proposedActions));
      }
    }
    return Ok(response);
  }

  /** The part of a cancel after authorisation. */
  method CancelOpenJob(store: Store, env: Env, jobId: string) returns (r: Result<JobRecord, TransitionError>)
    requires env.settings == store.settings && Stored(store, jobId)
    requires var k := Live(store.Of(jobId).record, store.now); k.Some? && !Terminal(k.value.status)
    modifies store
    ensures store.OnlyJob(jobId) && Stored(store, jobId)
    ensures store.Of(jobId) == CancelKeys(env.settings, old(store.Of(jobId)), store.now)
    ensures r.Ok? && store.Of(jobId).record == Some(Entry(r.value, old(store.Of(jobId)).record.value.expiry))
  {
    var record := store.GetJob(jobId);
    store.PurgeToken(jobId);
    store.RequestCancel(jobId);
    if record.value.status.Queued? {
      r := store.Transition(jobId, Cancelled, None, None);
    } else {
      r := Ok(record.value);
    }
  }

  method CancelResearch(store: Store, env: Env, jobId: string, caller: Caller)
    returns (r: Result<StatusResponse, ErrorCode>)
    requires env.settings == store.settings && Stored(store, jobId)
    modifies store
    ensures store.OnlyJob(jobId) && Stored(store, jobId)
    ensures (store.Of(jobId), r) == CancelResult(env, old(store.Of(jobId)), store.now, caller)
  {
    var record := FindAuthorized(store, env, jobId, caller);
    if record.None? {
      return Err(JobNotFound);
    }
    if Terminal(record.value.status) {
      return Ok(Status(record.value, false));
    }
    var after := CancelOpenJob(store, env, jobId);
    if record.value.status.Queued? && after.Ok? {
      return Ok(Status(after.value, false));
    }
    return Ok(Status(record.value, true));
  }

  method GetAction(store: Store, env: Env, actionId: string, caller: Caller, trace: Trace)
    returns (r: Result<ActionResponse, ErrorCode>)
    ensures r == GetActionResult(env, Lookup(store.proposals, actionId), store.now, caller, actionId, trace)
  {
    var p := store.GetProposal(actionId);
    if p.None? || !Owns(env.adapter, caller, p.value.consumerId, p.value.principalHash) {
      return Err(ActionExpired);
    }
    return Ok(ActionResponse(actionId, Some(p.value.action), Joined(trace, p.value)));
  }

  method RejectAction(store: Store, env: Env, actionId: string, caller: Caller, trace: Trace)
    returns (r: Result<ActionResponse, ErrorCode>)
    modifies store`proposals
    ensures (Lookup(store.proposals, actionId), r)
         == RejectResult(env, Lookup(old(store.proposals), actionId), store.now, caller, actionId, trace)
    ensures store.proposals - {actionId} == old(store.proposals) - {actionId}
    ensures r.Ok? ==> actionId !in store.proposals
    ensures r.Err? ==> store.proposals == old(store.proposals)
    ensures forall j :: store.Of(j) == old(store.Of(j))
  {
    var p := store.GetProposal(actionId);
    if p.None? || !Owns(env.adapter, caller, p.value.consumerId, p.value.principalHash) {
      return Err(ActionExpired);
    }
    store.DeleteProposal(actionId);
    return Ok(ActionResponse(actionId, None, Joined(trace, p.value)));
  }

  // ---- What a cancel achieves ----

  /**
   Cancelling an open job takes its token away at once. A queued job is over; a running one
   keeps its record and carries the flag for as long as the record lives.
   */
  lemma CancelTakesEffect(env: Env, k: JobKeys, now: int, caller: Caller)
    requires var r := AuthorizedJob(env, k, now, caller); r.Some? && !Terminal(r.value.status)
    requires JobTtl(env.settings) > 0
    ensures var before := k.record.value.value;
            var (after, r) := CancelResult(env, k, now, caller);
            && after.token == None && after.record.Some? && after.record.value.expiry == k.record.value.expiry
            && after.result == k.result && r.Ok?
            && if before.status.Queued? then
                 && after.record.value.value == before.(status := Cancelled, finishedAt := Some(now))
                 && after.cancel == None && r.value.status.Cancelled? && !r.value.cancelRequested
               else
                 && after.record == k.record && CancelRequested(after, now)
                 && r.value.status.Running? && r.value.cancelRequested
  {
  }

  /** A second cancel at the same moment adds nothing; one on a finished job never does. */
  lemma CancelIdempotent(env: Env, k: JobKeys, now: int, caller: Caller)
    ensures var once := CancelResult(env, k, now, caller).0;
            CancelResult(env, once, now, caller).0 == once
  {
  }
}
