/**
 What the store's methods do to the four keys of one job: its record, its staged token,
 its cancel flag and its result. Each function is one atomic step.
 */
module JobKeys {
  import opened Wrappers
  import opened Schemas

  /** A stored value and the first moment at which it is gone. */
  datatype Entry<T> = Entry(value: T, expiry: int)

  function Live<T>(e: Option<Entry<T>>, now: int): Option<T> {
    if e.Some? && now < e.value.expiry then Some(e.value.value) else None
  }

  datatype JobKeys = JobKeys(
    record: Option<Entry<JobRecord>>,
    token: Option<Entry<string>>,
    cancel: Option<Entry<bool>>,
    result: Option<Entry<JobResultDoc>>)

  const NO_KEYS := JobKeys(None, None, None, None)

  function JobTtl(s: Settings): nat {
    s.resultTtl + s.jobTimeout * s.jobMaxAttempts
  }

  function TokenTtl(s: Settings): nat {
    s.jobTimeout * s.jobMaxAttempts + 120
  }

  predicate Allowed(from: JobStatus, to: JobStatus) {
    match from
    case Queued => to.Running? || to.Cancelled? || to.Failed?
    case Running => !to.Queued?
    case _ => false
  }

  datatype TransitionError = NoSuchJob | InvalidTransition(current: JobStatus, requested: JobStatus)

  function CreateJob(s: Settings, k: JobKeys, now: int, r: JobRecord): JobKeys {
    k.(record := Some(Entry(r, now + JobTtl(s))))
  }

  /** Overwrites the record and keeps its expiry. */
  function SaveJob(k: JobKeys, r: JobRecord): JobKeys
    requires k.record.Some?
  {
    k.(record := Some(Entry(r, k.record.value.expiry)))
  }

  function Moved(r: JobRecord, to: JobStatus, attempt: Option<nat>, error: Option<ErrorCode>, now: int): JobRecord {
    r.(status := to,
       attempt := if attempt.Some? then attempt.value else r.attempt,
       error := if error.Some? then error else r.error,
       startedAt := if to.Running? && r.startedAt.None? then Some(now) else r.startedAt,
       finishedAt := if Terminal(to) then Some(now) else r.finishedAt)
  }

  /** The record a transition writes, or why there is none. */
  function Transition(k: JobKeys, now: int, to: JobStatus, attempt: Option<nat>, error: Option<ErrorCode>)
    : (r: Result<JobRecord, TransitionError>)
    ensures r.Ok? ==> k.record.Some?
  {
    var current := Live(k.record, now);
    if current.None? then Err(NoSuchJob)
    else if !Allowed(current.value.status, to) then Err(InvalidTransition(current.value.status, to))
    else Ok(Moved(current.value, to, attempt, error, now))
  }

  /** The keys after the transition that wrote `r`: a terminal one purges the token and the flag. */
  function AfterTransition(k: JobKeys, r: JobRecord): JobKeys
    requires k.record.Some?
  {
    var saved := SaveJob(k, r);
    if Terminal(r.status) then saved.(token := None, cancel := None) else saved
  }

  function SetProgress(k: JobKeys, now: int, tool: Option<string>, steps: nat): JobKeys {
    var current := Live(k.record, now);
    if current.None? then k else SaveJob(k, current.value.(progress := JobProgress(tool, steps)))
  }

  function SaveResult(s: Settings, k: JobKeys, now: int, doc: JobResultDoc): JobKeys {
    k.(result := Some(Entry(doc, now + s.resultTtl)))
  }

  function StageToken(s: Settings, k: JobKeys, now: int, ciphertext: string): JobKeys {
    k.(token := Some(Entry(ciphertext, now + TokenTtl(s))))
  }

  function PurgeToken(k: JobKeys): JobKeys {
    k.(token := None)
  }

  function RequestCancel(s: Settings, k: JobKeys, now: int): JobKeys {
    k.(cancel := Some(Entry(true, now + JobTtl(s))))
  }

  predicate CancelRequested(k: JobKeys, now: int) {
    Live(k.cancel, now).Some?
  }

  /** An uninterrupted cancel: the token goes first, a queued job is finalised on the spot. */
  function CancelKeys(s: Settings, k: JobKeys, now: int): JobKeys {
    var r := Live(k.record, now);
    if r.None? || Terminal(r.value.status) then k
    else
      var flagged := RequestCancel(s, PurgeToken(k), now);
      if !r.value.status.Queued? then flagged
      else
        match Transition(flagged, now, Cancelled, None, None)
        case Ok(cancelled) => AfterTransition(flagged, cancelled)
        case Err(_) => flagged
  }
}
