/**
 The Redis-backed store: one map per kind of key, each entry with its expiry, and a clock.
 Every method's contract gives the whole effect through the functions on a job's keys.
 */
module RedisStore {
  import opened Wrappers
  import opened Schemas
  import Keys = JobKeys
  import opened JobKeys

  function Lookup<T>(m: map<string, Entry<T>>, key: string): Option<Entry<T>> {
    if key in m then Some(m[key]) else None
  }

  class Store {
    const settings: Settings
    var now: int
    var jobs: map<string, Entry<JobRecord>>
    var tokens: map<string, Entry<string>>
    var cancels: map<string, Entry<bool>>
    var results: map<string, Entry<JobResultDoc>>
    var proposals: map<string, Entry<StoredProposal>>
    var idempotency: map<string, Entry<IdempotencyRecord>>

    constructor (settings: Settings, now: int)
      ensures this.settings == settings && this.now == now
      ensures forall j :: Of(j) == NO_KEYS
      ensures proposals == map[] && idempotency == map[]
    {
      this.settings := settings;
      this.now := now;
      jobs, tokens, cancels, results, proposals, idempotency := map[], map[], map[], map[], map[], map[];
    }

    /** The keys of one job. */
    function Of(jobId: string): JobKeys
      reads this
    {
      JobKeys(Lookup(jobs, jobId), Lookup(tokens, jobId), Lookup(cancels, jobId), Lookup(results, jobId))
    }

    /** Nothing outside the four keys of `jobId` has changed. */
    twostate predicate OnlyJob(jobId: string)
      reads this
    {
      && now == old(now) && proposals == old(proposals) && idempotency == old(idempotency)
      && forall j | j != jobId :: Of(j) == old(Of(j))
    }

    method Wait(seconds: nat)
      modifies this`now
      ensures now == old(now) + seconds
      ensures forall j :: Of(j) == old(Of(j))
    {
      now := now + seconds;
    }

    // ---- Jobs ----

    method CreateJob(record: JobRecord)
      modifies this`jobs
      ensures OnlyJob(record.jobId)
      ensures Of(record.jobId) == Keys.CreateJob(settings, old(Of(record.jobId)), now, record)
    {
      jobs := jobs[record.jobId := Entry(record, now + JobTtl(settings))];
    }

    method GetJob(jobId: string) returns (r: Option<JobRecord>)
      ensures r == Live(Of(jobId).record, now)
    {
      r := None;
      if jobId in jobs && now < jobs[jobId].expiry {
        r := Some(jobs[jobId].value);
      }
    }

    /** SET with KEEPTTL, after the record has been read in the same step. */
    method SaveJob(record: JobRecord)
      requires record.jobId in jobs
      modifies this`jobs
      ensures OnlyJob(record.jobId)
      ensures Of(record.jobId) == Keys.SaveJob(old(Of(record.jobId)), record)
    {
      jobs := jobs[record.jobId := Entry(record, jobs[record.jobId].expiry)];
    }

    method Transition(jobId: string, to: JobStatus, attempt: Option<nat>, error: Option<ErrorCode>)
      returns (r: Result<JobRecord, TransitionError>)
      requires jobId in jobs ==> jobs[jobId].value.jobId == jobId
      modifies this`jobs, this`tokens, this`cancels
      ensures OnlyJob(jobId)
      ensures r == Keys.Transition(old(Of(jobId)), now, to, attempt, error)
      ensures Of(jobId) == if r.Ok? then AfterTransition(old(Of(jobId)), r.value) else old(Of(jobId))
    {
      var current := GetJob(jobId);
      if current.None? {
        return Err(NoSuchJob);
      }
      var record := current.value;
      if !Allowed(record.status, to) {
        return Err(InvalidTransition(record.status, to));
      }
      record := record.(status := to);
      if attempt.Some? {
        record := record.(attempt := attempt.value);
      }
      if error.Some? {
        record := record.(error := error);
      }
      if to.Running? && record.startedAt.None? {
        record := record.(startedAt := Some(now));
      }
      if Terminal(to) {
        record := record.(finishedAt := Some(now));
      }
      assert record == Moved(current.value, to, attempt, error, now);
      ghost var before := Of(jobId);
      SaveJob(record);
      assert Of(jobId) == Keys.SaveJob(before, record);
      if Terminal(to) {
        PurgeToken(jobId);
        DropCancel(jobId);
      }
      return Ok(record);
    }

    method SetProgress(jobId: string, tool: Option<string>, steps: nat)
      requires jobId in jobs ==> jobs[jobId].value.jobId == jobId
      modifies this`jobs
      ensures OnlyJob(jobId)
      ensures Of(jobId) == Keys.SetProgress(old(Of(jobId)), now, tool, steps)
    {
      var record := GetJob(jobId);
      if record.Some? {
        SaveJob(record.value.(progress := JobProgress(tool, steps)));
      }
    }

    // ---- Results ----

    method SaveResult(jobId: string, doc: JobResultDoc)
      modifies this`results
      ensures OnlyJob(jobId)
      ensures Of(jobId) == Keys.SaveResult(settings, old(Of(jobId)), now, doc)
    {
      results := results[jobId := Entry(doc, now + settings.resultTtl)];
    }

    method GetResult(jobId: string) returns (r: Option<JobResultDoc>)
      ensures r == Live(Of(jobId).result, now)
    {
      r := None;
      if jobId in results && now < results[jobId].expiry {
        r := Some(results[jobId].value);
      }
    }

    // ---- Staged tokens ----

    method StageToken(jobId: string, ciphertext: string)
      modifies this`tokens
      ensures OnlyJob(jobId)
      ensures Of(jobId) == Keys.StageToken(settings, old(Of(jobId)), now, ciphertext)
    {
      tokens := tokens[jobId := Entry(ciphertext, now + TokenTtl(settings))];
    }

    method LoadToken(jobId: string) returns (r: Option<string>)
      ensures r == Live(Of(jobId).token, now)
    {
      r := None;
      if jobId in tokens && now < tokens[jobId].expiry {
        r := Some(tokens[jobId].value);
      }
    }

    method PurgeToken(jobId: string)
      modifies this`tokens
      ensures OnlyJob(jobId)
      ensures Of(jobId) == Keys.PurgeToken(old(Of(jobId)))
    {
      tokens := tokens - {jobId};
    }

    // ---- Cancellation ----

    method RequestCancel(jobId: string)
      modifies this`cancels
      ensures OnlyJob(jobId)
      ensures Of(jobId) == Keys.RequestCancel(settings, old(Of(jobId)), now)
    {
      cancels := cancels[jobId := Entry(true, now + JobTtl(settings))];
    }

    method DropCancel(jobId: string)
      modifies this`cancels
      ensures OnlyJob(jobId)
      ensures Of(jobId) == old(Of(jobId)).(cancel := None)
    {
      cancels := cancels - {jobId};
    }

    method IsCancelRequested(jobId: string) returns (r: bool)
      ensures r == CancelRequested(Of(jobId), now)
    {
      r := jobId in cancels && now < cancels[jobId].expiry;
    }

    // ---- Proposals ----

    method SaveProposal(stored: StoredProposal)
      modifies this`proposals
      ensures proposals == old(proposals)[stored.action.actionId := Entry(stored, now + settings.proposalTtl)]
    {
      proposals := proposals[stored.action.actionId := Entry(stored, now + settings.proposalTtl)];
    }

    method GetProposal(actionId: string) returns (r: Option<StoredProposal>)
      ensures r == Live(Lookup(proposals, actionId), now)
    {
      r := None;
      if actionId in proposals && now < proposals[actionId].expiry {
        r := Some(proposals[actionId].value);
      }
    }

    method DeleteProposal(actionId: string)
      modifies this`proposals
      ensures proposals == old(proposals) - {actionId}
    {
      proposals := proposals - {actionId};
    }

    // ---- Idempotency ----

    method GetIdempotency(key: string) returns (r: Option<IdempotencyRecord>)
      ensures r == Live(Lookup(idempotency, key), now)
    {
      r := None;
      if key in idempotency && now < idempotency[key].expiry {
        r := Some(idempotency[key].value);
      }
    }

    method PutIdempotency(key: string, record: IdempotencyRecord)
      modifies this`idempotency
      ensures idempotency == old(idempotency)[key := Entry(record, now + settings.idempotencyTtl)]
    {
      idempotency := idempotency[key := Entry(record, now + settings.idempotencyTtl)];
    }
  }
}
