/**
 What callers of the job and action endpoints are told, field by field, and what the store's
 job operations write.
 */
module ResearchLaws {
  import opened Wrappers
  import opened Schemas
  import opened JobKeys
  import opened ResearchApi

  // ---- Whose jobs and proposals ----

  /** With user tokens a job answers its principal alone, whichever consumer asks. */
  lemma JobsByPrincipal(env: Env, k: JobKeys, now: int, caller: Caller)
    requires env.adapter.userPat && k.record.Some? && now < k.record.value.expiry
    ensures var refused := k.record.value.value.principalHash != Some(caller.presentedHash);
            && (PollResult(env, k, now, caller).Err? <==> refused)
            && (CancelResult(env, k, now, caller).1.Err? <==> refused)
            && (refused ==> PollResult(env, k, now, caller) == Err(JobNotFound)
                            && CancelResult(env, k, now, caller) == (k, Err(JobNotFound)))
  {
  }

  /** Without user tokens a job answers its consumer alone, whatever the hashes. */
  lemma JobsByConsumer(env: Env, k: JobKeys, now: int, caller: Caller)
    requires !env.adapter.userPat && k.record.Some? && now < k.record.value.expiry
    ensures var refused := k.record.value.value.consumerId != caller.consumerId;
            && (PollResult(env, k, now, caller).Err? <==> refused)
            && (CancelResult(env, k, now, caller).1.Err? <==> refused)
            && (refused ==> PollResult(env, k, now, caller) == Err(JobNotFound)
                            && CancelResult(env, k, now, caller) == (k, Err(JobNotFound)))
  {
  }

  /** A job that is not there is told apart from no one else's. */
  lemma MissingJob(env: Env, k: JobKeys, now: int, caller: Caller)
    requires k.record.Some? ==> k.record.value.expiry <= now
    ensures PollResult(env, k, now, caller) == Err(JobNotFound)
    ensures CancelResult(env, k, now, caller) == (k, Err(JobNotFound))
  {
  }

  /** The correlation id of a call on a proposal: the sent one, the run's without a header, fresh for an empty one. */
  predicate Correlated(trace: Trace, action: ProposedAction, id: string) {
    match trace.header
    case None => id == action.correlationId
    case Some(sent) => if sent == "" then id == trace.minted else id == sent
  }

  /** What reading and rejecting a live proposal come to for its owner and for anyone else. */
  predicate AnswersOwnerOnly(env: Env, e: Option<Entry<StoredProposal>>, now: int, caller: Caller, id: string,
                             trace: Trace, refused: bool)
    requires e.Some?
  {
    var shown := GetActionResult(env, e, now, caller, id, trace);
    var rejection := RejectResult(env, e, now, caller, id, trace);
    var action := e.value.value.action;
    if refused then shown == Err(ActionExpired) && rejection == (e, Err(ActionExpired))
    else
      && shown.Ok? && shown.value.actionId == id && shown.value.action == Some(action)
      && Correlated(trace, action, shown.value.correlationId)
      && rejection.0 == None && rejection.1.Ok?
      && rejection.1.value.actionId == id && rejection.1.value.action == None
      && Correlated(trace, action, rejection.1.value.correlationId)
  }

  lemma ProposalsByPrincipal(env: Env, e: Option<Entry<StoredProposal>>, now: int, caller: Caller, id: string,
                             trace: Trace)
    requires env.adapter.userPat && e.Some? && now < e.value.expiry
    ensures AnswersOwnerOnly(env, e, now, caller, id, trace, e.value.value.principalHash != Some(caller.presentedHash))
  {
  }

  lemma ProposalsByConsumer(env: Env, e: Option<Entry<StoredProposal>>, now: int, caller: Caller, id: string,
                            trace: Trace)
    requires !env.adapter.userPat && e.Some? && now < e.value.expiry
    ensures AnswersOwnerOnly(env, e, now, caller, id, trace, e.value.value.consumerId != caller.consumerId)
  {
  }

  lemma MissingProposal(env: Env, e: Option<Entry<StoredProposal>>, now: int, caller: Caller, id: string, trace: Trace)
    requires e.Some? ==> e.value.expiry <= now
    ensures GetActionResult(env, e, now, caller, id, trace) == Err(ActionExpired)
    ensures RejectResult(env, e, now, caller, id, trace) == (e, Err(ActionExpired))
  {
  }

  // ---- What a status answer holds ----

  /** The answer's fields that come from the record. */
  predicate Reports(s: StatusResponse, r: JobRecord) {
    && s.jobId == r.jobId && s.sessionId == r.sessionId && s.correlationId == r.correlationId
    && s.status == r.status && s.attempt == r.attempt && s.error == r.error
    && s.createdAt == r.createdAt && s.startedAt == r.startedAt && s.finishedAt == r.finishedAt
    && s.progress == if r.status == Running then Some(r.progress) else None
  }

  /** A poll reports the record, the live flag, and the result exactly when the job is completed and it is readable. */
  lemma PollShows(env: Env, k: JobKeys, now: int, caller: Caller)
    requires k.record.Some? && now < k.record.value.expiry && PollResult(env, k, now, caller).Ok?
    ensures var (r, s) := (k.record.value.value, PollResult(env, k, now, caller).value);
            && Reports(s, r)
            && (s.cancelRequested <==> k.cancel.Some? && now < k.cancel.value.expiry)
            && if r.status == Completed && k.result.Some? && now < k.result.value.expiry then
                 && s.findings == Some(k.result.value.value.findings)
                 && s.proposedActions == Some(k.result.value.value.proposedActions)
               else s.findings == None && s.proposedActions == None
  {
  }

  /** A cancel reports the job as it leaves it; on a finished job it changes nothing. */
  lemma CancelShows(env: Env, k: JobKeys, now: int, caller: Caller)
    requires k.record.Some? && now < k.record.value.expiry && CancelResult(env, k, now, caller).1.Ok?
    ensures var r := k.record.value.value;
            var (after, answer) := CancelResult(env, k, now, caller);
            && answer.value.findings == None && answer.value.proposedActions == None
            && after.record.Some? && Reports(answer.value, after.record.value.value)
            && (answer.value.cancelRequested <==> r.status == Running)
            && (r.status !in {Queued, Running} ==> after == k)
            && (r.status == Running ==> after.record == k.record)
            && (r.status == Queued ==> after.record.value.value == r.(status := Cancelled, finishedAt := Some(now)))
  {
  }

  // ---- What the store writes ----

  /** The transitions there are, and what is told of the others. */
  lemma TransitionTable(k: JobKeys, now: int, to: JobStatus, attempt: Option<nat>, error: Option<ErrorCode>)
    ensures var result := Transition(k, now, to, attempt, error);
            if k.record.None? || k.record.value.expiry <= now then result == Err(NoSuchJob)
            else
              var from := k.record.value.value.status;
              if (from, to) in {(Queued, Running), (Queued, Cancelled), (Queued, Failed), (Running, Running),
                                (Running, Completed), (Running, Failed), (Running, Cancelled)}
              then result.Ok?
              else result == Err(InvalidTransition(from, to))
  {
  }

  /** A transition sets the status, the given attempt and error, the first start and the end, and nothing else. */
  lemma TransitionWrites(k: JobKeys, now: int, to: JobStatus, attempt: Option<nat>, error: Option<ErrorCode>)
    requires Transition(k, now, to, attempt, error).Ok?
    ensures var (before, r) := (k.record.value.value, Transition(k, now, to, attempt, error).value);
            && r == before.(status := r.status, attempt := r.attempt, error := r.error,
                            startedAt := r.startedAt, finishedAt := r.finishedAt)
            && r.status == to
            && r.attempt == (match attempt case Some(n) => n case None => before.attempt)
            && r.error == (match error case Some(_) => error case None => before.error)
            && r.startedAt == (if to == Running && before.startedAt == None then Some(now) else before.startedAt)
            && r.finishedAt == (if to in {Completed, Failed, Cancelled} then Some(now) else before.finishedAt)
  {
  }

  /** The record keeps its expiry; the end of a job takes its token and its flag away. */
  lemma TransitionPurges(k: JobKeys, now: int, to: JobStatus, attempt: Option<nat>, error: Option<ErrorCode>)
    requires Transition(k, now, to, attempt, error).Ok?
    ensures var r := Transition(k, now, to, attempt, error).value;
            var over := to in {Completed, Failed, Cancelled};
            AfterTransition(k, r)
            == JobKeys(Some(Entry(r, k.record.value.expiry)), if over then None else k.token,
                       if over then None else k.cancel, k.result)
  {
  }

  /** A progress write changes the progress of a live record, and nothing else. */
  lemma ProgressWritten(k: JobKeys, now: int, tool: Option<string>, steps: nat)
    ensures var after := SetProgress(k, now, tool, steps);
            && after.token == k.token && after.cancel == k.cancel && after.result == k.result
            && if k.record.Some? && now < k.record.value.expiry then
                 && after.record.Some? && after.record.value.expiry == k.record.value.expiry
                 && after.record.value.value.progress == JobProgress(tool, steps)
                 && after.record.value.value.(progress := k.record.value.value.progress) == k.record.value.value
               else after.record == k.record
  {
  }
}
