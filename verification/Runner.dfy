/**
 The worker's run loop over the store, one call after another. What it does is exactly a
 driven attempt of the job's machine.
 */
module Runner {
  import opened Wrappers
  import opened Schemas
  import opened JobKeys
  import opened RedisStore
  import opened JobProtocol
  import opened Redelivery
  import opened JobInvariants
  import ResearchApi

  /** The machine's view of the store for one job. */
  ghost function View(store: Store, jobId: string, log: Log): Shared
    reads store
  {
    Shared(store.Of(jobId), store.proposals, store.now, log)
  }

  /** Only the job, the proposals and the clock may have changed. */
  twostate predicate OnlyRun(store: Store, jobId: string)
    reads store
  {
    store.idempotency == old(store.idempotency) && forall j | j != jobId :: store.Of(j) == old(store.Of(j))
  }

  predicate Ready(store: Store, env: Env, jobId: string)
    reads store
  {
    env.settings == store.settings && ResearchApi.Stored(store, jobId)
  }

  lemma DriveCons(env: Env, sh: Shared, p: Proc, b: Beat, rest: seq<Beat>)
    ensures var (next, q) := Play(env, sh, p, b);
            Drive(env, sh, p, [b] + rest) == Drive(env, next, q, rest)
  {
    hide Play;
    assert ([b] + rest)[1..] == rest;
  }

  /** The agent at work on a step, while the user may cancel. */
  method AgentWorks(store: Store, env: Env, jobId: string, rec: JobRecord, step: AgentStep, ghost writes: nat,
                    ghost attempt: nat, ghost log: Log, ghost tail: seq<Beat>)
    requires Ready(store, env, jobId)
    modifies store
    ensures Ready(store, env, jobId) && OnlyRun(store, jobId) && store.proposals == old(store.proposals)
    ensures Drive(env, old(View(store, jobId, log)), Run(attempt, writes, Stream(rec)),
                  [Beat(step.took, step.cancelled, Yield(step.tool))] + tail)
         == Drive(env, View(store, jobId, log), Run(attempt, writes, StepCheck(rec, step.tool)), tail)
  {
    hide Drive, CancelKeys;
    DriveCons(env, View(store, jobId, log), Run(attempt, writes, Stream(rec)),
              Beat(step.took, step.cancelled, Yield(step.tool)), tail);
    store.Wait(step.took);
    if step.cancelled {
      UserCancel(store, env, jobId, log);
    }
  }

  /** One state yielded by the agent: the flag is checked, then progress is recorded. */
  method AgentStepTaken(store: Store, env: Env, jobId: string, rec: JobRecord, step: AgentStep, writes: nat,
                        ghost attempt: nat, ghost log: Log, ghost tail: seq<Beat>)
    returns (flagged: bool)
    requires Ready(store, env, jobId)
    modifies store
    ensures Ready(store, env, jobId) && OnlyRun(store, jobId) && store.proposals == old(store.proposals)
    ensures Drive(env, old(View(store, jobId, log)), Run(attempt, writes, Stream(rec)),
                  [Beat(step.took, step.cancelled, Yield(step.tool))] + ([Plain(Go)] + ([Plain(Go)] + tail)))
         == if flagged then Drive(env, View(store, jobId, log), Run(attempt, writes, Abort), [Plain(Go)] + tail)
            else Drive(env, View(store, jobId, log), Run(attempt, writes + 1, Stream(rec)), tail)
  {
    hide Drive;
    AgentWorks(store, env, jobId, rec, step, writes, attempt, log, [Plain(Go)] + ([Plain(Go)] + tail));
    DriveCons(env, View(store, jobId, log), Run(attempt, writes, StepCheck(rec, step.tool)), Plain(Go),
              [Plain(Go)] + tail);
    flagged := store.IsCancelRequested(jobId);
    if !flagged {
      DriveCons(env, View(store, jobId, log), Run(attempt, writes, StepWrite(rec, step.tool)), Plain(Go), tail);
      store.SetProgress(jobId, step.tool, writes + 1);
    }
  }

  /**
   Drives the agent step by step; between steps it honours cancellation and records
   progress. When it stops for a cancel, `left` are the beats not yet played.
   */
  method StreamAgent(store: Store, env: Env, jobId: string, rec: JobRecord, steps: seq<AgentStep>,
                     ghost attempt: nat, ghost log: Log)
    returns (cancelled: bool, writes: nat, ghost left: seq<Beat>)
    requires Ready(store, env, jobId)
    modifies store
    ensures Ready(store, env, jobId) && OnlyRun(store, jobId) && store.proposals == old(store.proposals)
    ensures writes <= |steps| && (!cancelled ==> writes == |steps|)
    ensures Drive(env, old(View(store, jobId, log)), Run(attempt, 0, Stream(rec)), StepBeats(steps))
         == if cancelled then Drive(env, View(store, jobId, log), Run(attempt, writes, Abort), [Plain(Go)] + left)
            else (View(store, jobId, log), Run(attempt, writes, Stream(rec)))
  {
    writes := 0;
    assert steps[0..] == steps;
    while writes < |steps|
      invariant writes <= |steps|
      invariant Ready(store, env, jobId) && OnlyRun(store, jobId) && store.proposals == old(store.proposals)
      invariant Drive(env, old(View(store, jobId, log)), Run(attempt, 0, Stream(rec)), StepBeats(steps))
             == Drive(env, View(store, jobId, log), Run(attempt, writes, Stream(rec)), StepBeats(steps[writes..]))
    {
      StepBeatsUnfold(steps, writes);
      left := StepBeats(steps[writes + 1..]);
      cancelled := AgentStepTaken(store, env, jobId, rec, steps[writes], writes, attempt, log, left);
      if cancelled {
        return;
      }
      writes := writes + 1;
    }
    cancelled, left := false, [];
    NoBeats(env, View(store, jobId, log), Run(attempt, writes, Stream(rec)), steps[writes..]);
  }

  lemma NoBeats(env: Env, sh: Shared, p: Proc, steps: seq<AgentStep>)
    requires steps == []
    ensures Drive(env, sh, p, StepBeats(steps)) == (sh, p)
  {
  }

  lemma StepBeatsUnfold(steps: seq<AgentStep>, i: nat)
    requires i < |steps|
    ensures StepBeats(steps[i..])
         == [Beat(steps[i].took, steps[i].cancelled, Yield(steps[i].tool))]
            + ([Plain(Go)] + ([Plain(Go)] + StepBeats(steps[i + 1..])))
  {
    assert steps[i..][1..] == steps[i + 1..];
  }

  /** A cancel request of the job's owner that arrives while the agent works. */
  method UserCancel(store: Store, env: Env, jobId: string, ghost log: Log)
    requires Ready(store, env, jobId)
    modifies store
    ensures Ready(store, env, jobId) && OnlyRun(store, jobId)
    ensures View(store, jobId, log) == CancelCall(env, old(View(store, jobId, log)))
  {
    var record := store.GetJob(jobId);
    if record.Some? && !Terminal(record.value.status) {
      var after := ResearchApi.CancelOpenJob(store, env, jobId);
    }
  }

  /** The action is offered for one proposal lifetime from `at` on, and stored as the job owner's for as long. */
  predicate Staged(env: Env, proposals: map<string, Entry<StoredProposal>>, rec: JobRecord, at: int,
                   a: ProposedAction)
  {
    && a.expiresAt == at + env.settings.proposalTtl
    && a.correlationId == rec.correlationId
    && a.actionId in proposals
    && proposals[a.actionId]
       == Entry(StoredProposal(a, rec.jobId, rec.sessionId, rec.consumerId, rec.principalHash),
                at + env.settings.proposalTtl)
  }

  lemma PlayPersist(env: Env, sh: Shared, attempt: nat, writes: nat, pc: RunPc, id: string)
    requires pc.Persist?
    ensures var (stored, next) := StepPersist(env, sh, pc, Mint(id));
            Play(env, sh, Run(attempt, writes, pc), Plain(Mint(id))) == (stored, Run(attempt, writes, next))
  {
    hide StepPersist;
  }

  /** One candidate: stored under a fresh id when it validates, dropped otherwise. */
  method PersistOne(store: Store, env: Env, jobId: string, rec: JobRecord, candidate: AgentAction, id: string,
                    expiresAt: int, ghost pc: RunPc, ghost attempt: nat, ghost writes: nat, ghost log: Log,
                    ghost tail: seq<Beat>)
    returns (action: Option<ProposedAction>, ghost after: Log)
    requires Ready(store, env, jobId) && Fresh(View(store, jobId, log), id)
    requires pc.Persist? && pc.next < |pc.output.proposedActions| && pc.output.proposedActions[pc.next] == candidate
    requires pc.rec == rec && pc.acceptedAt == store.now && expiresAt == store.now + env.settings.proposalTtl
    modifies store`proposals
    ensures OnlyRun(store, jobId) && store.Of(jobId) == old(store.Of(jobId))
    ensures if action.Some? then
              store.proposals.Keys == old(store.proposals).Keys + {id} && after.stored.Keys == log.stored.Keys + {id}
            else store.proposals == old(store.proposals) && after == log
    ensures action.Some? <==> env.adapter.validate(candidate.actionType, candidate.payload).Valid?
    ensures action.Some? ==>
              && action.value.actionId == id && Carries(action.value, candidate)
              && Staged(env, store.proposals, rec, store.now, action.value)
              && store.proposals - {id} == old(store.proposals)
    ensures var next := pc.(next := pc.next + 1, acc := if action.Some? then pc.acc + [action.value] else pc.acc);
            (Drive(env, old(View(store, jobId, log)), Run(attempt, writes, pc), [Plain(Mint(id))] + tail)
             == Drive(env, View(store, jobId, after), Run(attempt, writes, next), tail))
  {
    hide Drive, Play;
    DriveCons(env, View(store, jobId, log), Run(attempt, writes, pc), Plain(Mint(id)), tail);
    PlayPersist(env, View(store, jobId, log), attempt, writes, pc, id);
    action, after := None, log;
    if env.adapter.validate(candidate.actionType, candidate.payload).Valid? {
      var a := ProposedAction(id, candidate.actionType, candidate.target, candidate.payload,
                              candidate.preview, candidate.preconditions, expiresAt,
                              env.adapter.editableFields(candidate.actionType), rec.correlationId);
      var stored := StoredProposal(a, rec.jobId, rec.sessionId, rec.consumerId, rec.principalHash);
      store.SaveProposal(stored);
      after := log.(stored := log.stored[id := stored], answered := log.answered[id := pc.acceptedAt]);
      action := Some(a);
    }
  }

  /** Everything stored before is still there, and all that is new is among the actions. */
  predicate NothingElseStored(a: map<string, Entry<StoredProposal>>, b: map<string, Entry<StoredProposal>>,
                              actions: seq<ProposedAction>) {
    && (forall id | id in a :: id in b && b[id] == a[id])
    && (forall id | id in b && id !in a :: exists k :: 0 <= k < |actions| && actions[k].actionId == id)
  }

  lemma NothingStored(a: map<string, Entry<StoredProposal>>)
    ensures NothingElseStored(a, a, [])
  {
  }

  lemma MoreStaged(env: Env, a: map<string, Entry<StoredProposal>>, b: map<string, Entry<StoredProposal>>,
                   c: map<string, Entry<StoredProposal>>, rec: JobRecord, at: int, acc: seq<ProposedAction>,
                   action: ProposedAction)
    requires NothingElseStored(a, b, acc) && forall k | 0 <= k < |acc| :: Staged(env, b, rec, at, acc[k])
    requires action.actionId !in b && c - {action.actionId} == b && Staged(env, c, rec, at, action)
    ensures var more := acc + [action];
            NothingElseStored(a, c, more) && forall k | 0 <= k < |more| :: Staged(env, c, rec, at, more[k])
  {
    var more := acc + [action];
    assert forall id | id in b :: id in c - {action.actionId};
    assert forall id | id in b :: c[id] == (c - {action.actionId})[id];
    forall id | id in c && id !in a ensures exists k :: 0 <= k < |more| && more[k].actionId == id {
      if id == action.actionId {
        assert more[|acc|].actionId == id;
      } else {
        assert id in c - {action.actionId};
        var k :| 0 <= k < |acc| && acc[k].actionId == id;
        assert more[k].actionId == id;
      }
    }
  }

  /** Stages the agent's valid actions for approval, one by one; the invalid ones are dropped. */
  method PersistProposals(store: Store, env: Env, jobId: string, rec: JobRecord, output: AgentResult, ids: seq<string>,
                          ghost attempt: nat, ghost writes: nat, ghost log: Log)
    returns (acc: seq<ProposedAction>, ghost after: Log)
    requires Ready(store, env, jobId)
    requires |ids| == |output.proposedActions| && FreshIdSeq(View(store, jobId, log), ids)
    modifies store`proposals
    ensures OnlyRun(store, jobId) && store.Of(jobId) == old(store.Of(jobId))
    ensures var start := Persist(rec, output, store.now, 0, []);
            (Drive(env, old(View(store, jobId, log)), Run(attempt, writes, start), MintBeats(ids))
             == (View(store, jobId, after), Run(attempt, writes, start.(next := |ids|, acc := acc))))
    ensures forall k | 0 <= k < |acc| :: Staged(env, store.proposals, rec, store.now, acc[k])
    ensures NothingElseStored(old(store.proposals), store.proposals, acc)
  {
    hide FreshIdSeq, Play, Drive, Staged, NothingElseStored;
    var expiresAt := store.now + env.settings.proposalTtl;
    ghost var start := Persist(rec, output, store.now, 0, []);
    acc, after := [], log;
    var i := 0;
    assert ids[0..] == ids;
    NothingStored(store.proposals);
    while i < |ids|
      invariant 0 <= i <= |ids|
      invariant OnlyRun(store, jobId) && store.Of(jobId) == old(store.Of(jobId))
      invariant FreshIdSeq(View(store, jobId, after), ids[i..])
      invariant forall k | 0 <= k < |acc| :: Staged(env, store.proposals, rec, store.now, acc[k])
      invariant NothingElseStored(old(store.proposals), store.proposals, acc)
      invariant Drive(env, old(View(store, jobId, log)), Run(attempt, writes, start), MintBeats(ids))
             == Drive(env, View(store, jobId, after), Run(attempt, writes, start.(next := i, acc := acc)),
                      MintBeats(ids[i..]))
    {
      ghost var before := View(store, jobId, after);
      MintBeatsUnfold(ids, i);
      FreshHead(before, ids[i..]);
      var action;
      action, after := PersistOne(store, env, jobId, rec, output.proposedActions[i], ids[i], expiresAt,
                                  start.(next := i, acc := acc), attempt, writes, after, MintBeats(ids[i + 1..]));
      assert ids[i..][1..] == ids[i + 1..];
      if action.Some? {
        MoreStaged(env, old(store.proposals), before.proposals, store.proposals, rec, store.now, acc, action.value);
        acc := acc + [action.value];
        FreshTail(before, View(store, jobId, after), ids[i..]);
      }
      i := i + 1;
    }
    NoMints(env, View(store, jobId, after), Run(attempt, writes, start.(next := i, acc := acc)), ids[i..]);
  }

  lemma NoMints(env: Env, sh: Shared, p: Proc, ids: seq<string>)
    requires ids == []
    ensures Drive(env, sh, p, MintBeats(ids)) == (sh, p)
  {
  }

  lemma MintBeatsUnfold(ids: seq<string>, i: nat)
    requires i < |ids|
    ensures MintBeats(ids[i..]) == [Plain(Mint(ids[i]))] + MintBeats(ids[i + 1..])
  {
    assert ids[i..][1..] == ids[i + 1..];
  }

  lemma FreshHead(sh: Shared, ids: seq<string>)
    requires ids != [] && FreshIdSeq(sh, ids)
    ensures Fresh(sh, ids[0]) && FreshIdSeq(sh, ids[1..])
  {
  }

  /** Using up the first id leaves the others fresh. */
  lemma FreshTail(a: Shared, b: Shared, ids: seq<string>)
    requires ids != [] && FreshIdSeq(a, ids)
    requires b.proposals.Keys == a.proposals.Keys + {ids[0]} && b.log.stored.Keys == a.log.stored.Keys + {ids[0]}
    ensures FreshIdSeq(b, ids[1..])
  {
    forall i | 0 <= i < |ids[1..]| ensures Fresh(b, ids[1..][i]) {
      assert Fresh(a, ids[i + 1]);
      assert ids[i + 1] !in a.proposals.Keys && ids[i + 1] !in a.log.stored.Keys && ids[i + 1] != ids[0];
    }
  }

  /** The closing transition of an attempt that failed or was cancelled; its errors propagate. */
  method Close(store: Store, env: Env, jobId: string, to: JobStatus, error: Option<ErrorCode>,
               ghost pc: RunPc, ghost attempt: nat, ghost writes: nat, ghost log: Log, ghost rest: seq<Beat>)
    returns (outcome: RunOutcome)
    requires Ready(store, env, jobId)
    requires match pc
             case Fail(code) => to == Failed && error == Some(code)
             case Abort => to == Cancelled && error == None
             case Discard => to == Cancelled && error == None
             case _ => false
    modifies store
    ensures Ready(store, env, jobId) && OnlyRun(store, jobId) && store.proposals == old(store.proposals)
    ensures Drive(env, old(View(store, jobId, log)), Run(attempt, writes, pc), [Plain(Go)] + rest)
         == (View(store, jobId, log), Run(attempt, writes, Ended(outcome)))
  {
    hide Drive;
    DriveCons(env, View(store, jobId, log), Run(attempt, writes, pc), Plain(Go), rest);
    var r := store.Transition(jobId, to, None, error);
    outcome := if r.Ok? then Returned else Raised;
    DriveEnded(env, View(store, jobId, log), Run(attempt, writes, Ended(outcome)), rest);
  }

  /** The funnel for ordinary exceptions: retry while attempts remain. */
  method RetryOrFail(store: Store, env: Env, jobId: string, attempt: nat, rec: JobRecord,
                     ghost writes: nat, ghost log: Log, ghost rest: seq<Beat>)
    returns (outcome: RunOutcome)
    requires Ready(store, env, jobId)
    modifies store
    ensures Ready(store, env, jobId) && OnlyRun(store, jobId)
    ensures Drive(env, old(View(store, jobId, log)), Run(attempt, writes, Funnel(attempt, rec)), [Plain(Go)] + rest)
         == (View(store, jobId, log), Run(attempt, writes, Ended(outcome)))
  {
    hide Drive, Play;
    if attempt < rec.maxAttempts {
      DriveEnded(env, View(store, jobId, log), Run(attempt, writes, Ended(Retry)), [Plain(Go)] + rest);
      return Retry;
    }
    outcome := Close(store, env, jobId, Failed, Some(InternalError), Fail(InternalError), attempt, writes, log, rest);
  }

  datatype PickedUp = Taken(rec: JobRecord) | Skipped(outcome: RunOutcome)

  /** Everything before the run proper: a job that is gone, over or cancelled is not run. */
  method PickUp(store: Store, env: Env, jobId: string, attempt: nat, ghost log: Log, ghost rest: seq<Beat>)
    returns (r: PickedUp)
    requires Ready(store, env, jobId)
    modifies store
    ensures Ready(store, env, jobId) && OnlyRun(store, jobId) && store.proposals == old(store.proposals)
    ensures Drive(env, old(View(store, jobId, log)), Run(attempt, 0, Fetch), OPENING + rest)
         == (match r
             case Taken(rec) => Drive(env, View(store, jobId, log), Run(attempt, 0, Resolve(rec)), rest)
             case Skipped(outcome) => (View(store, jobId, log), Run(attempt, 0, Ended(outcome))))
  {
    hide Drive;
    ghost var go := Plain(Go);
    ghost var start := View(store, jobId, log);
    assert OPENING + rest == [go] + ([go] + ([go] + rest));
    DriveCons(env, start, Run(attempt, 0, Fetch), go, [go] + ([go] + rest));
    DriveEnded(env, start, Run(attempt, 0, Ended(Returned)), [go] + ([go] + rest));
    var record := store.GetJob(jobId);
    if record.None? || Terminal(record.value.status) {
      return Skipped(Returned);
    }
    DriveCons(env, start, Run(attempt, 0, CheckFlag), go, [go] + rest);
    var flagged := store.IsCancelRequested(jobId);
    if flagged {
      var outcome := Close(store, env, jobId, Cancelled, None, Discard, attempt, 0, log, rest);
      return Skipped(outcome);
    }
    DriveCons(env, start, Run(attempt, 0, Enter), go, rest);
    var entered := store.Transition(jobId, Running, Some(attempt), None);
    return Taken(entered.value);
  }

  /** The staged token is needed and must decrypt; otherwise the attempt takes the failure funnel. */
  method ResolveCredentials(store: Store, env: Env, jobId: string, attempt: nat, rec: JobRecord, script: Script,
                            ghost log: Log, ghost rest: seq<Beat>)
    returns (failed: Option<RunOutcome>)
    requires Ready(store, env, jobId)
    modifies store
    ensures Ready(store, env, jobId) && OnlyRun(store, jobId)
    ensures failed.None? ==> store.proposals == old(store.proposals)
    ensures Drive(env, old(View(store, jobId, log)), Run(attempt, 0, Resolve(rec)), CredentialBeats(script) + rest)
         == (if failed.None? then Drive(env, View(store, jobId, log), Run(attempt, 0, Stream(rec)), rest)
             else (View(store, jobId, log), Run(attempt, 0, Ended(failed.value))))
  {
    hide Drive;
    ghost var first := Plain(if script.credentialsFail then Throw else Go);
    assert CredentialBeats(script) + rest == [first] + ([Plain(Go)] + rest);
    DriveCons(env, View(store, jobId, log), Run(attempt, 0, Resolve(rec)), first, [Plain(Go)] + rest);
    var ok := !script.credentialsFail;
    if ok && env.adapter.userPat {
      var token := store.LoadToken(jobId);
      ok := token.Some?;
    }
    if !ok {
      var outcome := RetryOrFail(store, env, jobId, attempt, rec, 0, log, rest);
      return Some(outcome);
    }
    DriveCons(env, View(store, jobId, log), Run(attempt, 0, Stream(rec)), Plain(Go), rest);
    return None;
  }

  /** The agent's answer: proposals staged, result saved, then the job is completed. */
  method DeliverAnswer(store: Store, env: Env, jobId: string, attempt: nat, rec: JobRecord, output: AgentResult,
                       ids: seq<string>, ghost writes: nat, ghost log: Log)
    returns (outcome: RunOutcome, ghost after: Log)
    requires Ready(store, env, jobId)
    requires FreshIds(View(store, jobId, log), Answers(output, ids))
    modifies store
    ensures Ready(store, env, jobId) && OnlyRun(store, jobId)
    ensures Drive(env, old(View(store, jobId, log)), Run(attempt, writes, Stream(rec)),
                  [Plain(Finish(output))] + MintBeats(ids) + CLOSING)
         == (View(store, jobId, after), Run(attempt, writes, Ended(outcome)))
  {
    hide Drive, MintBeats, Fresh;
    ghost var start := View(store, jobId, log);
    AnswerSplit(env, start, attempt, writes, rec, output, ids);
    ghost var begun := Persist(rec, output, start.now, 0, []);
    var actions;
    actions, after := PersistProposals(store, env, jobId, rec, output, ids, attempt, writes, log);
    ghost var staged := begun.(next := |ids|, acc := actions);
    outcome, after := Complete(store, env, jobId, attempt, rec, output, actions, staged, writes, after);
  }

  lemma {:induction false} AnswerSplit(env: Env, sh: Shared, attempt: nat, writes: nat, rec: JobRecord,
                                       output: AgentResult, ids: seq<string>)
    ensures var begun := Persist(rec, output, sh.now, 0, []);
            var (next, p) := Drive(env, sh, Run(attempt, writes, begun), MintBeats(ids));
            Drive(env, sh, Run(attempt, writes, Stream(rec)), [Plain(Finish(output))] + MintBeats(ids) + CLOSING)
            == Drive(env, next, p, CLOSING)
  {
    hide Play, Drive, MintBeats, CLOSING;
    var start := Run(attempt, writes, Stream(rec));
    DriveConcat(env, sh, start, [Plain(Finish(output))] + MintBeats(ids), CLOSING);
    DriveCons(env, sh, start, Plain(Finish(output)), MintBeats(ids));
    FinishStep(env, sh, attempt, writes, rec, output);
  }

  /** Saves the result and enters COMPLETED; losing that race takes the failure funnel. */
  method Complete(store: Store, env: Env, jobId: string, attempt: nat, rec: JobRecord, output: AgentResult,
                  actions: seq<ProposedAction>, ghost pc: RunPc, ghost writes: nat, ghost log: Log)
    returns (outcome: RunOutcome, ghost after: Log)
    requires Ready(store, env, jobId)
    requires pc.Persist? && pc.next == |output.proposedActions|
    requires pc.rec == rec && pc.output == output && pc.acc == actions
    modifies store
    ensures Ready(store, env, jobId) && OnlyRun(store, jobId)
    ensures Drive(env, old(View(store, jobId, log)), Run(attempt, writes, pc), CLOSING)
         == (View(store, jobId, after), Run(attempt, writes, Ended(outcome)))
  {
    hide Drive;
    ghost var go := Plain(Go);
    assert CLOSING == [go] + ([go] + ([go] + [go]));
    DriveCons(env, View(store, jobId, log), Run(attempt, writes, pc), go, [go] + ([go] + [go]));
    DriveCons(env, View(store, jobId, log), Run(attempt, writes, Publish(rec, output, actions)), go, [go] + [go]);
    var doc := JobResultDoc(Findings(output.summary, output.sources, output.details), actions);
    store.SaveResult(jobId, doc);
    after := log.(results := log.results + [SavedResult(output, doc, store.now)]);
    outcome := EnterCompleted(store, env, jobId, attempt, rec, writes, after);
  }

  method EnterCompleted(store: Store, env: Env, jobId: string, attempt: nat, rec: JobRecord, ghost writes: nat,
                        ghost log: Log)
    returns (outcome: RunOutcome)
    requires Ready(store, env, jobId)
    modifies store
    ensures Ready(store, env, jobId) && OnlyRun(store, jobId)
    ensures Drive(env, old(View(store, jobId, log)), Run(attempt, writes, RunPc.Complete(rec)),
                  [Plain(Go)] + [Plain(Go)])
         == (View(store, jobId, log), Run(attempt, writes, Ended(outcome)))
  {
    hide Drive;
    DriveCons(env, View(store, jobId, log), Run(attempt, writes, RunPc.Complete(rec)), Plain(Go), [Plain(Go)]);
    var completed := store.Transition(jobId, Completed, None, None);
    if completed.Ok? {
      DriveEnded(env, View(store, jobId, log), Run(attempt, writes, Ended(Returned)), [Plain(Go)]);
      return Returned;
    }
    assert [Plain(Go)] == [Plain(Go)] + [];
    outcome := RetryOrFail(store, env, jobId, attempt, rec, writes, log, []);
  }

  /** How the run ends once the agent has stopped: an answer, an exception or the time limit. */
  method EndOfStream(store: Store, env: Env, jobId: string, attempt: nat, rec: JobRecord, script: Script,
                     ghost writes: nat, ghost log: Log)
    returns (outcome: RunOutcome, ghost after: Log)
    requires Ready(store, env, jobId) && FreshIds(View(store, jobId, log), script.end)
    modifies store
    ensures Ready(store, env, jobId) && OnlyRun(store, jobId)
    ensures Drive(env, old(View(store, jobId, log)), Run(attempt, writes, Stream(rec)), EndBeats(script))
         == (View(store, jobId, after), Run(attempt, writes, Ended(outcome)))
  {
    hide Drive, MintBeats, CLOSING, FreshIds;
    after := log;
    ghost var start := View(store, jobId, log);
    if script.end.RunsOut? {
      assert EndBeats(script) == [Plain(TimeOut)] + ([Plain(Go)] + []);
      DriveCons(env, start, Run(attempt, writes, Stream(rec)), Plain(TimeOut), [Plain(Go)] + []);
      outcome := Close(store, env, jobId, Failed, Some(JobTimeout), Fail(JobTimeout), attempt, writes, log, []);
    } else if script.end.Answers? && script.steps != [] {
      outcome, after := DeliverAnswer(store, env, jobId, attempt, rec, script.end.output, script.end.ids, writes, log);
    } else {
      assert EndBeats(script) == [Plain(Throw)] + ([Plain(Go)] + []);
      DriveCons(env, start, Run(attempt, writes, Stream(rec)), Plain(Throw), [Plain(Go)] + []);
      outcome := RetryOrFail(store, env, jobId, attempt, rec, writes, log, []);
    }
  }

  lemma SameFresh(a: Shared, b: Shared, end: AgentEnd)
    requires FreshIds(a, end) && a.proposals == b.proposals && a.log == b.log
    ensures FreshIds(b, end)
  {
    if end.Answers? {
      assert forall i | 0 <= i < |end.ids| :: Fresh(a, end.ids[i]);
    }
  }

  /**
   One delivery of a job to the worker. Its effect on the store and its outcome are those of
   the scripted attempt on the job's machine, so everything proved of runs holds of it.
   */
  method RunResearchJob(store: Store, env: Env, jobId: string, attempt: nat, script: Script, ghost log: Log)
    returns (outcome: RunOutcome, ghost writes: nat, ghost after: Log)
    requires Ready(store, env, jobId) && FreshIds(View(store, jobId, log), script.end)
    modifies store
    ensures Ready(store, env, jobId) && OnlyRun(store, jobId)
    ensures Attempt(env, old(View(store, jobId, log)), attempt, script)
         == (View(store, jobId, after), Run(attempt, writes, Ended(outcome)))
  {
    hide Drive, Play, FreshIds, CredentialBeats, StepBeats, EndBeats, OPENING;
    writes, after := 0, log;
    ghost var start := View(store, jobId, log);
    ghost var steps, end := StepBeats(script.steps), EndBeats(script);
    var picked := PickUp(store, env, jobId, attempt, log, CredentialBeats(script) + (steps + end));
    if picked.Skipped? {
      return picked.outcome, 0, log;
    }
    var rec := picked.rec;
    var failed := ResolveCredentials(store, env, jobId, attempt, rec, script, log, steps + end);
    if failed.Some? {
      return failed.value, 0, log;
    }
    SameFresh(start, View(store, jobId, log), script.end);
    outcome, writes, after := RunAgent(store, env, jobId, attempt, rec, script, log);
  }

  /** The run proper: the agent is streamed and its end is dealt with. */
  method RunAgent(store: Store, env: Env, jobId: string, attempt: nat, rec: JobRecord, script: Script, ghost log: Log)
    returns (outcome: RunOutcome, ghost writes: nat, ghost after: Log)
    requires Ready(store, env, jobId) && FreshIds(View(store, jobId, log), script.end)
    modifies store
    ensures Ready(store, env, jobId) && OnlyRun(store, jobId)
    ensures Drive(env, old(View(store, jobId, log)), Run(attempt, 0, Stream(rec)),
                  StepBeats(script.steps) + EndBeats(script))
         == (View(store, jobId, after), Run(attempt, writes, Ended(outcome)))
  {
    hide Drive, Play, FreshIds, StepBeats, EndBeats;
    after := log;
    ghost var start := View(store, jobId, log);
    DriveConcat(env, start, Run(attempt, 0, Stream(rec)), StepBeats(script.steps), EndBeats(script));
    var cancelled;
    ghost var left;
    cancelled, writes, left := StreamAgent(store, env, jobId, rec, script.steps, attempt, log);
    SameFresh(start, View(store, jobId, log), script.end);
    if cancelled {
      outcome := Close(store, env, jobId, Cancelled, None, Abort, attempt, writes, log, left);
      DriveEnded(env, View(store, jobId, log), Run(attempt, writes, Ended(outcome)), EndBeats(script));
    } else {
      outcome, after := EndOfStream(store, env, jobId, attempt, rec, script, writes, log);
    }
  }

  // ---- The queue ----

  /** One delivery; a retryable failure is turned into a deferral of `min(2**attempt, 30)` seconds. */
  method ResearchJob(store: Store, env: Env, jobId: string, attempt: nat, script: Script, ghost log: Log)
    returns (defer: Option<nat>, ghost next: Proc, ghost after: Log)
    requires Ready(store, env, jobId) && FreshIds(View(store, jobId, log), script.end)
    modifies store
    ensures Ready(store, env, jobId) && OnlyRun(store, jobId)
    ensures (View(store, jobId, after), next) == Attempt(env, old(View(store, jobId, log)), attempt, script)
    ensures next.Run? && defer == if next.pc == Ended(Retry) then Some(Defer(attempt)) else None
  {
    hide Attempt, FreshIds, Pow2;
    var outcome;
    ghost var writes;
    outcome, writes, after := RunResearchJob(store, env, jobId, attempt, script, log);
    next := Run(attempt, writes, Ended(outcome));
    defer := None;
    if outcome.Retry? {
      defer := Some(if Pow2(attempt) < 30 then Pow2(attempt) else 30);
    }
  }

  /**
   Works a job off the queue: deliveries follow one another until one does not ask for a
   retry. The job is left settled with the verdict of the first decisive attempt.
   */
  method DrainJob(store: Store, env: Env, jobId: string, ds: seq<Delivery>, ghost log: Log)
    returns (ghost after: Log)
    requires Ready(store, env, jobId) && Deliverable(env, View(store, jobId, log), 1, ds)
    requires |ds| == Current(View(store, jobId, log)).maxAttempts > 0
    modifies store
    ensures Ready(store, env, jobId) && OnlyRun(store, jobId)
    ensures View(store, jobId, after) == Redeliver(env, old(View(store, jobId, log)), 1, ds)
    ensures var start := old(View(store, jobId, log));
            SettledBy(View(store, jobId, after), KindsFrom(env, start, 1, ds), Current(start).attempt, 1)
  {
    hide Attempt, Deliverable, SettledBy, KindsFrom, Defer, CancelCall, FreshIds;
    after := log;
    ghost var start := View(store, jobId, log);
    RedeliveryClosedForm(env, start, 1, ds);
    var i, again := 0, true;
    assert ds[0..] == ds;
    while again && i < |ds|
      invariant i <= |ds|
      invariant Ready(store, env, jobId) && OnlyRun(store, jobId)
      invariant again ==> Deliverable(env, View(store, jobId, after), i + 1, ds[i..])
      invariant Redeliver(env, start, 1, ds)
             == if again then Redeliver(env, View(store, jobId, after), i + 1, ds[i..]) else View(store, jobId, after)
    {
      assert ds[i..][1..] == ds[i + 1..];
      ghost var before := View(store, jobId, after);
      RetryKeeps(env, before, i + 1, ds[i..]);
      HeadFresh(env, before, i + 1, ds[i..]);
      Deliver(store, env, jobId, ds[i], after);
      var defer;
      ghost var next;
      defer, next, after := ResearchJob(store, env, jobId, i + 1, ds[i].script, after);
      if defer.None? {
        again := false;
      } else {
        store.Wait(defer.value);
        i := i + 1;
      }
    }
  }

  /** The wait in the queue, during which the user may cancel. */
  method Deliver(store: Store, env: Env, jobId: string, d: Delivery, ghost log: Log)
    requires Ready(store, env, jobId)
    modifies store
    ensures Ready(store, env, jobId) && OnlyRun(store, jobId)
    ensures View(store, jobId, log) == Delivered(env, old(View(store, jobId, log)), d)
  {
    hide CancelCall;
    store.Wait(d.queued);
    if d.cancelled {
      UserCancel(store, env, jobId, log);
    }
  }

  lemma HeadFresh(env: Env, sh: Shared, attempt: nat, ds: seq<Delivery>)
    requires ds != [] && Deliverable(env, sh, attempt, ds)
    ensures FreshIds(Delivered(env, sh, ds[0]), ds[0].script.end)
  {
    hide CancelKeys, FreshIds;
    FreshIdsKept(sh, Delivered(env, sh, ds[0]), ds);
  }
}
