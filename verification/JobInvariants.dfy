/**
 What every reachable state of a job's machine satisfies, and how states may change along
 a run. Each process is shown to keep its own claims under whatever the others may do.
 */
module JobInvariants {
  import opened Wrappers
  import opened Schemas
  import opened JobKeys
  import opened JobProtocol

  /** The fields of a record that nothing ever changes. */
  predicate SameJob(r: JobRecord, base: JobRecord) {
    && r.jobId == base.jobId
    && r.sessionId == base.sessionId
    && r.consumerId == base.consumerId
    && r.principalHash == base.principalHash
    && r.correlationId == base.correlationId
    && r.createdAt == base.createdAt
    && r.maxAttempts == base.maxAttempts
  }

  predicate WellFormed(r: JobRecord, now: int) {
    && r.createdAt <= now
    && (r.finishedAt.Some? <==> Terminal(r.status))
    && (r.error.Some? <==> r.status.Failed?)
    && (r.startedAt.Some? ==> r.createdAt <= r.startedAt.value <= now)
    && (r.finishedAt.Some? ==> r.createdAt <= r.finishedAt.value <= now)
    && (r.startedAt.Some? && r.finishedAt.Some? ==> r.startedAt.value <= r.finishedAt.value)
    && (r.status.Queued? ==> r.startedAt.None? && r.attempt == 0)
    && (r.status.Running? || r.status.Completed? ==> r.startedAt.Some?)
  }

  // ---- Proposals and results ----

  /** The agent's actions that the adapter accepts, in the agent's order. */
  function Survivors(env: Env, actions: seq<AgentAction>): seq<AgentAction> {
    if actions == [] then []
    else
      var last := actions[|actions| - 1];
      Survivors(env, actions[..|actions| - 1])
      + if env.adapter.validate(last.actionType, last.payload).Valid? then [last] else []
  }

  /** The offered action is the agent's action, unchanged. */
  predicate Carries(offered: ProposedAction, a: AgentAction) {
    && offered.actionType == a.actionType
    && offered.target == a.target
    && offered.payload == a.payload
    && offered.preview == a.preview
    && offered.preconditions == a.preconditions
  }

  predicate CarriesAll(offered: seq<ProposedAction>, actions: seq<AgentAction>) {
    |offered| == |actions| && forall i | 0 <= i < |offered| :: Carries(offered[i], actions[i])
  }

  /** A proposal stored for this job: its owner and correlation id are the job's, its payload is valid. */
  predicate OwnProposal(env: Env, base: JobRecord, p: StoredProposal) {
    && p.jobId == base.jobId
    && p.sessionId == base.sessionId
    && p.consumerId == base.consumerId
    && p.principalHash == base.principalHash
    && p.action.correlationId == base.correlationId
    && p.action.editableFields == env.adapter.editableFields(p.action.actionType)
    && env.adapter.validate(p.action.actionType, p.action.payload).Valid?
  }

  /** The action was stored as a proposal of this job before. */
  predicate Offered(log: Log, a: ProposedAction) {
    a.actionId in log.stored && log.stored[a.actionId].action == a
  }

  predicate AllOffered(log: Log, actions: seq<ProposedAction>) {
    forall i | 0 <= i < |actions| :: Offered(log, actions[i])
  }

  predicate GoodResult(env: Env, log: Log, r: SavedResult) {
    && r.doc.findings == Findings(r.output.summary, r.output.sources, r.output.details)
    && CarriesAll(r.doc.proposedActions, Survivors(env, r.output.proposedActions))
    && AllOffered(log, r.doc.proposedActions)
  }

  /** Stored proposals are the job's own, each with the lifetime its answer's acceptance gives it. */
  predicate StoredInv(env: Env, sh: Shared) {
    && sh.log.answered.Keys == sh.log.stored.Keys
    && forall id | id in sh.log.stored ::
         && sh.log.stored[id].action.actionId == id && OwnProposal(env, sh.log.submitted, sh.log.stored[id])
         && id in sh.log.answered && sh.log.answered[id] <= sh.now
         && sh.log.stored[id].action.expiresAt == sh.log.answered[id] + env.settings.proposalTtl
  }

  /** As long as they are there they are unchanged, and Redis keeps them no shorter than they are offered. */
  predicate KeptInv(sh: Shared) {
    forall id | id in sh.log.stored && id in sh.proposals ::
      sh.proposals[id].value == sh.log.stored[id] && sh.proposals[id].expiry >= sh.log.stored[id].action.expiresAt
  }

  predicate ResultsGood(env: Env, log: Log) {
    forall i | 0 <= i < |log.results| :: GoodResult(env, log, log.results[i])
  }

  predicate ProposalsInv(env: Env, sh: Shared) {
    StoredInv(env, sh) && KeptInv(sh) && ResultsGood(env, sh.log)
  }

  // ---- The four keys ----

  predicate RecordInv(env: Env, sh: Shared) {
    && FreshRecord(sh.log.submitted)
    && sh.log.submitted.createdAt <= sh.now
    && (sh.keys.record.Some? <==> sh.log.createdAt.Some?)
    && (sh.log.torn ==> sh.keys.record.Some? && Terminal(sh.keys.record.value.value.status))
    && (sh.keys.record.Some? ==>
          var Entry(r, expiry) := sh.keys.record.value;
          && sh.log.createdAt.value <= sh.now
          && expiry == sh.log.createdAt.value + JobTtl(env.settings)
          && SameJob(r, sh.log.submitted)
          && WellFormed(r, sh.now)
          && (r.status.Completed? ==> sh.log.results != []))
  }

  predicate TokenInv(env: Env, sh: Shared) {
    && (sh.log.stagedAt.Some? ==> sh.log.stagedAt.value <= sh.now)
    && (sh.log.stagedAt.Some? && sh.log.createdAt.Some? ==> sh.log.stagedAt.value <= sh.log.createdAt.value)
    && (sh.keys.token.Some? ==>
          && sh.log.stagedAt.Some?
          && sh.keys.token.value == Entry(sh.log.ciphertext, sh.log.stagedAt.value + TokenTtl(env.settings))
          && (sh.keys.record.Some? ==> sh.log.torn || !Terminal(sh.keys.record.value.value.status)))
  }

  predicate CancelInv(sh: Shared) {
    sh.keys.cancel.Some? ==> sh.keys.record.Some? && sh.keys.cancel.value.expiry >= sh.keys.record.value.expiry
  }

  predicate ResultInv(env: Env, sh: Shared) {
    if sh.log.results == [] then sh.keys.result.None?
    else
      var last := sh.log.results[|sh.log.results| - 1];
      sh.keys.result == Some(Entry(last.doc, last.savedAt + env.settings.resultTtl))
      && last.savedAt <= sh.now && sh.keys.record.Some?
  }

  predicate SharedInv(env: Env, sh: Shared) {
    RecordInv(env, sh) && TokenInv(env, sh) && CancelInv(sh) && ResultInv(env, sh) && ProposalsInv(env, sh)
  }

  // ---- What each process may rely on ----

  predicate SubmitInv(env: Env, sh: Shared, pc: SubmitPc) {
    match pc
    case Stage => env.adapter.userPat && sh.log.stagedAt.None? && sh.log.createdAt.None?
    case Create => (env.adapter.userPat ==> sh.log.stagedAt.Some?) && sh.log.createdAt.None?
    case _ => sh.log.createdAt.Some?
  }

  predicate Entered(sh: Shared, rec: JobRecord) {
    && sh.keys.record.Some?
    && !sh.keys.record.value.value.status.Queued?
    && SameJob(rec, sh.log.submitted)
  }

  predicate RunInv(env: Env, sh: Shared, pc: RunPc) {
    match pc
    case Fetch => true
    case CheckFlag => sh.keys.record.Some?
    case Discard => sh.keys.record.Some?
    case Enter => sh.keys.record.Some?
    case Persist(rec, output, acceptedAt, next, acc) =>
      && Entered(sh, rec)
      && next <= |output.proposedActions|
      && acceptedAt <= sh.now
      && CarriesAll(acc, Survivors(env, output.proposedActions[..next]))
      && AllOffered(sh.log, acc)
    case Publish(rec, output, acc) =>
      && Entered(sh, rec)
      && CarriesAll(acc, Survivors(env, output.proposedActions))
      && AllOffered(sh.log, acc)
    case Complete(rec) => Entered(sh, rec) && sh.log.results != []
    case Ended(_) => true
    case Fail(_) => sh.keys.record.Some? && !sh.keys.record.value.value.status.Queued?
    case Abort => sh.keys.record.Some? && !sh.keys.record.value.value.status.Queued?
    case _ => Entered(sh, pc.rec)
  }

  predicate ProcInv(env: Env, sh: Shared, p: Proc) {
    match p
    case Submit(pc) => SubmitInv(env, sh, pc)
    case Cancel(pc) => pc.Read? || sh.keys.record.Some?
    case Run(_, _, pc) => RunInv(env, sh, pc)
    case Over => true
  }

  predicate Inv(env: Env, s: Job) {
    && SharedInv(env, s.sh)
    && (forall pid | pid in s.procs :: ProcInv(env, s.sh, s.procs[pid]))
    && (forall pid | pid in s.procs :: s.procs[pid].Submit? ==> pid == 0)
  }

  // ---- How the shared state may change ----

  /** Once terminal, a record keeps everything but its progress. */
  predicate Frozen(a: JobRecord, b: JobRecord) {
    b == a.(progress := b.progress)
  }

  predicate RecordAdvances(a: JobRecord, b: JobRecord) {
    && SameJob(b, a)
    && (Terminal(a.status) ==> Frozen(a, b))
    && (!a.status.Queued? ==> !b.status.Queued?)
    && (a.startedAt.Some? ==> b.startedAt == a.startedAt)
  }

  predicate KeysAdvance(a: Shared, b: Shared) {
    && (a.keys.record.Some? ==>
          && b.keys.record.Some?
          && b.keys.record.value.expiry == a.keys.record.value.expiry
          && RecordAdvances(a.keys.record.value.value, b.keys.record.value.value))
    && (a.log.stagedAt.Some? ==> b.keys.token == a.keys.token || b.keys.token.None?)
  }

  predicate LogAdvances(a: Log, b: Log) {
    && b.submitted == a.submitted
    && b.ciphertext == a.ciphertext
    && (a.stagedAt.Some? ==> b.stagedAt == a.stagedAt)
    && (a.createdAt.Some? ==> b.createdAt == a.createdAt)
    && (a.torn ==> b.torn)
    && a.results <= b.results
    && (forall id | id in a.stored :: id in b.stored && b.stored[id] == a.stored[id])
    && (forall id | id in a.answered :: id in b.answered && b.answered[id] == a.answered[id])
  }

  predicate Advances(a: Shared, b: Shared) {
    a.now <= b.now && KeysAdvance(a, b) && LogAdvances(a.log, b.log)
  }

  lemma AdvancesTransitive(a: Shared, b: Shared, c: Shared)
    requires Advances(a, b) && Advances(b, c)
    ensures Advances(a, c)
  {
  }

  /** A runner's and a canceller's claims survive whatever the others do. */
  lemma RunInvStable(env: Env, a: Shared, b: Shared, pc: RunPc)
    requires RunInv(env, a, pc) && Advances(a, b)
    ensures RunInv(env, b, pc)
  {
  }

  // ---- Every step keeps the invariant ----

  /** What every process but the submitter leaves alone. */
  predicate SameBirth(a: Shared, b: Shared) {
    b.log.stagedAt == a.log.stagedAt && b.log.createdAt == a.log.createdAt
  }

  predicate Keeps(env: Env, a: Shared, b: Shared) {
    SharedInv(env, b) && Advances(a, b)
  }

  /** Results stay good as further proposals are stored. */
  lemma GoodResultsKept(env: Env, a: Log, b: Log)
    requires forall i | 0 <= i < |a.results| :: GoodResult(env, a, a.results[i])
    requires a.results == b.results && forall id | id in a.stored :: id in b.stored && b.stored[id] == a.stored[id]
    ensures forall i | 0 <= i < |b.results| :: GoodResult(env, b, b.results[i])
  {
    hide CarriesAll, Survivors;
    forall i | 0 <= i < |b.results| ensures GoodResult(env, b, b.results[i]) {
      assert GoodResult(env, a, a.results[i]);
    }
  }

  lemma ProposalsUnchanged(env: Env, a: Shared, b: Shared)
    requires ProposalsInv(env, a) && a.proposals == b.proposals
    requires a.log.submitted == b.log.submitted && a.log.stored == b.log.stored && a.log.results == b.log.results
    requires a.log.answered == b.log.answered && a.now <= b.now
    ensures ProposalsInv(env, b)
  {
    hide GoodResult, OwnProposal;
    GoodResultsKept(env, a.log, b.log);
  }

  /** A legal transition with an error exactly when it fails the job. */
  lemma TransitionKeeps(env: Env, sh: Shared, to: JobStatus, attempt: Option<nat>, error: Option<ErrorCode>)
    requires SharedInv(env, sh) && Do(sh, to, attempt, error).Ok?
    requires (error.Some? <==> to.Failed?) && (to.Completed? ==> sh.log.results != [])
    ensures var (next, r) := Do(sh, to, attempt, error).value;
            Keeps(env, sh, next) && SameBirth(sh, next)
            && next.keys.record.Some? && next.keys.record.value.value == r && r.status == to
            && SameJob(r, sh.log.submitted) && next.log == sh.log
  {
    hide ProposalsInv, Advances, CancelInv, TokenInv;
    var (next, r) := Do(sh, to, attempt, error).value;
    ProposalsUnchanged(env, sh, next);
    TransitionAdvances(env, sh, to, attempt, error);
  }

  lemma TransitionAdvances(env: Env, sh: Shared, to: JobStatus, attempt: Option<nat>, error: Option<ErrorCode>)
    requires SharedInv(env, sh) && Do(sh, to, attempt, error).Ok?
    ensures var next := Do(sh, to, attempt, error).value.0;
            Advances(sh, next) && TokenInv(env, next) && CancelInv(next)
  {
    hide ProposalsInv, ResultInv, WellFormed;
  }

  lemma AttemptKeeps(env: Env, sh: Shared, to: JobStatus, error: Option<ErrorCode>)
    requires SharedInv(env, sh) && Terminal(to)
    requires (error.Some? <==> to.Failed?) && (to.Completed? ==> sh.log.results != [])
    ensures Keeps(env, sh, Attempted(sh, to, error)) && SameBirth(sh, Attempted(sh, to, error))
    ensures Keeps(env, sh, TornTransition(sh, to, error)) && SameBirth(sh, TornTransition(sh, to, error))
  {
    hide ProposalsInv;
    if Do(sh, to, None, error).Ok? {
      TransitionKeeps(env, sh, to, None, error);
      ProposalsUnchanged(env, sh, TornTransition(sh, to, error));
    }
  }

  lemma SubmitStep(env: Env, sh: Shared, pc: SubmitPc, c: Choice)
    requires SharedInv(env, sh) && SubmitInv(env, sh, pc)
    ensures var (next, p) := StepSubmit(env, sh, pc, c);
            Keeps(env, sh, next) && ProcInv(env, next, p)
  {
    hide ProposalsInv, WellFormed, Attempted, TornTransition;
    var (next, p) := StepSubmit(env, sh, pc, c);
    if pc.MarkFailed? {
      AttemptKeeps(env, sh, Failed, Some(DependencyUnavailable));
    } else {
      ProposalsUnchanged(env, sh, next);
      if pc.Create? { FreshIsWellFormed(sh.log.submitted, sh.now); }
    }
  }

  lemma FreshIsWellFormed(r: JobRecord, now: int)
    requires FreshRecord(r) && r.createdAt <= now
    ensures WellFormed(r, now)
  {
  }

  lemma CancelStep(env: Env, sh: Shared, pc: CancelPc, c: Choice)
    requires SharedInv(env, sh) && ProcInv(env, sh, Cancel(pc))
    ensures var (next, p) := StepCancel(env, sh, pc, c);
            Keeps(env, sh, next) && SameBirth(sh, next) && ProcInv(env, next, p) && !p.Submit?
  {
    hide ProposalsInv;
    var (next, p) := StepCancel(env, sh, pc, c);
    if pc.Finalize? {
      AttemptKeeps(env, sh, Cancelled, None);
    } else {
      ProposalsUnchanged(env, sh, next);
    }
  }

  /** A change of the stored proposals alone, time apart, leaves the four keys as they were. */
  lemma OnlyProposals(env: Env, a: Shared, b: Shared)
    requires SharedInv(env, a) && ProposalsInv(env, b)
    requires b.keys == a.keys && a.now <= b.now && b.log == a.log.(stored := b.log.stored, answered := b.log.answered)
    requires forall id | id in a.log.stored :: id in b.log.stored && b.log.stored[id] == a.log.stored[id]
    requires forall id | id in a.log.answered :: id in b.log.answered && b.log.answered[id] == a.log.answered[id]
    ensures Keeps(env, a, b) && SameBirth(a, b)
  {
    hide ProposalsInv, FreshRecord;
  }

  lemma ProposalAdded(env: Env, sh: Shared, p: StoredProposal, acceptedAt: int)
    requires ProposalsInv(env, sh) && Fresh(sh, p.action.actionId) && OwnProposal(env, sh.log.submitted, p)
    requires p.action.expiresAt == acceptedAt + env.settings.proposalTtl && acceptedAt <= sh.now
    ensures ProposalsInv(env, SaveProposal(env, sh, p, acceptedAt))
  {
    hide StoredInv, KeptInv, GoodResult, OwnProposal;
    GoodResultsKept(env, sh.log, SaveProposal(env, sh, p, acceptedAt).log);
    StoredAdded(env, sh, p, acceptedAt);
    KeptAdded(env, sh, p, acceptedAt);
  }

  lemma StoredAdded(env: Env, sh: Shared, p: StoredProposal, acceptedAt: int)
    requires StoredInv(env, sh) && OwnProposal(env, sh.log.submitted, p)
    requires p.action.expiresAt == acceptedAt + env.settings.proposalTtl && acceptedAt <= sh.now
    ensures StoredInv(env, SaveProposal(env, sh, p, acceptedAt))
  {
    hide OwnProposal;
  }

  lemma KeptAdded(env: Env, sh: Shared, p: StoredProposal, acceptedAt: int)
    requires KeptInv(sh) && p.action.expiresAt == acceptedAt + env.settings.proposalTtl && acceptedAt <= sh.now
    ensures KeptInv(SaveProposal(env, sh, p, acceptedAt))
  {
  }

  lemma NotAnswered(env: Env, sh: Shared, id: string)
    requires StoredInv(env, sh) && Fresh(sh, id)
    ensures id !in sh.log.answered
  {
    assert id !in sh.log.answered.Keys;
  }

  /** Storing one more proposal of this job under a fresh id. */
  lemma StoreKeeps(env: Env, sh: Shared, rec: JobRecord, a: AgentAction, id: string, acceptedAt: int)
    requires SharedInv(env, sh) && SameJob(rec, sh.log.submitted) && Fresh(sh, id)
    requires env.adapter.validate(a.actionType, a.payload).Valid?
    requires acceptedAt <= sh.now
    ensures var action := MakeAction(env, rec, a, id, acceptedAt + env.settings.proposalTtl);
            var next := SaveProposal(env, sh, MakeStored(rec, action), acceptedAt);
            Keeps(env, sh, next) && SameBirth(sh, next) && next.keys == sh.keys && next.now == sh.now
            && Offered(next.log, action) && Carries(action, a)
  {
    hide StoredInv, KeptInv, ResultsGood, Keeps, SameBirth, RecordInv, TokenInv, CancelInv, ResultInv;
    var p := MakeStored(rec, MakeAction(env, rec, a, id, acceptedAt + env.settings.proposalTtl));
    assert OwnProposal(env, sh.log.submitted, p);
    ProposalAdded(env, sh, p, acceptedAt);
    NotAnswered(env, sh, id);
    OnlyProposals(env, sh, SaveProposal(env, sh, p, acceptedAt));
  }

  lemma SurvivorsStep(env: Env, actions: seq<AgentAction>, n: nat)
    requires n < |actions|
    ensures Survivors(env, actions[..n + 1])
         == Survivors(env, actions[..n])
            + if env.adapter.validate(actions[n].actionType, actions[n].payload).Valid? then [actions[n]] else []
  {
    assert actions[..n + 1][..n] == actions[..n];
  }

  lemma PersistStep(env: Env, sh: Shared, pc: RunPc, c: Choice)
    requires SharedInv(env, sh) && pc.Persist? && RunInv(env, sh, pc)
    ensures var (next, after) := StepPersist(env, sh, pc, c);
            Keeps(env, sh, next) && SameBirth(sh, next) && RunInv(env, next, after)
  {
    hide SharedInv, Survivors, Carries, MakeAction, SaveProposal, Fresh;
    var Persist(rec, output, acceptedAt, n, acc) := pc;
    var actions := output.proposedActions;
    if n == |actions| {
      assert actions[..n] == actions;
    } else {
      var a := actions[n];
      SurvivorsStep(env, actions, n);
      if env.adapter.validate(a.actionType, a.payload).Valid? && c.Mint? && Fresh(sh, c.id) {
        StoreKeeps(env, sh, rec, a, c.id, acceptedAt);
      }
    }
  }

  lemma ResultAdded(env: Env, sh: Shared, output: AgentResult, acc: seq<ProposedAction>)
    requires ProposalsInv(env, sh)
    requires CarriesAll(acc, Survivors(env, output.proposedActions)) && AllOffered(sh.log, acc)
    ensures ProposalsInv(env, Publication(env, sh, output, acc))
  {
    hide CarriesAll, Survivors, OwnProposal, SaveResult;
    var next := Publication(env, sh, output, acc);
    forall i | 0 <= i < |next.log.results| ensures GoodResult(env, next.log, next.log.results[i]) {
      if i < |sh.log.results| { assert GoodResult(env, sh.log, sh.log.results[i]); }
    }
  }

  lemma PublishStep(env: Env, sh: Shared, rec: JobRecord, output: AgentResult, acc: seq<ProposedAction>)
    requires SharedInv(env, sh) && RunInv(env, sh, Publish(rec, output, acc))
    ensures var next := Publication(env, sh, output, acc);
            Keeps(env, sh, next) && SameBirth(sh, next) && RunInv(env, next, Complete(rec))
  {
    hide ProposalsInv, CarriesAll, Survivors, AllOffered, WellFormed;
    ResultAdded(env, sh, output, acc);
  }

  lemma ProgressKeeps(env: Env, sh: Shared, tool: Option<string>, steps: nat)
    requires SharedInv(env, sh)
    ensures var next := sh.(keys := SetProgress(sh.keys, sh.now, tool, steps));
            Keeps(env, sh, next) && SameBirth(sh, next)
            && (forall rec :: Entered(sh, rec) ==> Entered(next, rec))
  {
    hide ProposalsInv;
    ProposalsUnchanged(env, sh, sh.(keys := SetProgress(sh.keys, sh.now, tool, steps)));
  }

  lemma EndingStep(env: Env, sh: Shared, attempt: nat, writes: nat, pc: RunPc, c: Choice)
    requires SharedInv(env, sh) && RunInv(env, sh, pc) && (pc.Discard? || pc.Fail? || pc.Abort?)
    ensures var (next, p) := StepRun(env, sh, attempt, writes, pc, c);
            Keeps(env, sh, next) && SameBirth(sh, next) && p.Run? && RunInv(env, next, p.pc)
  {
    hide Keeps, SharedInv, SameBirth, SameJob, Do, TornTransition, AllOffered, CarriesAll;
    NothingDone(env, sh);
    if pc.Fail? {
      AttemptKeeps(env, sh, Failed, Some(pc.code));
    } else {
      AttemptKeeps(env, sh, Cancelled, None);
    }
  }

  lemma CompleteStep(env: Env, sh: Shared, attempt: nat, writes: nat, pc: RunPc, c: Choice)
    requires SharedInv(env, sh) && RunInv(env, sh, pc) && pc.Complete?
    ensures var (next, p) := StepRun(env, sh, attempt, writes, pc, c);
            Keeps(env, sh, next) && SameBirth(sh, next) && p.Run? && RunInv(env, next, p.pc)
  {
    hide Keeps, SharedInv, SameBirth, SameJob, Do, TornTransition, AllOffered, CarriesAll;
    NothingDone(env, sh);
    AttemptKeeps(env, sh, Completed, None);
  }

  lemma RunStep(env: Env, sh: Shared, attempt: nat, writes: nat, pc: RunPc, c: Choice)
    requires SharedInv(env, sh) && RunInv(env, sh, pc)
    ensures var (next, p) := StepRun(env, sh, attempt, writes, pc, c);
            Keeps(env, sh, next) && SameBirth(sh, next) && p.Run? && RunInv(env, next, p.pc)
  {
    hide StepRun, Keeps, SameBirth, SharedInv, RunInv;
    if pc.Complete? {
      CompleteStep(env, sh, attempt, writes, pc, c);
    } else if pc.Discard? || pc.Fail? || pc.Abort? {
      EndingStep(env, sh, attempt, writes, pc, c);
    } else if pc.Fetch? || pc.CheckFlag? || pc.Enter? {
      PickupStep(env, sh, attempt, writes, pc, c);
    } else if pc.Persist? || pc.Publish? || pc.Ended? {
      DeliveryStep(env, sh, attempt, writes, pc, c);
    } else {
      AgentStep(env, sh, attempt, writes, pc, c);
    }
  }

  lemma NothingDone(env: Env, sh: Shared)
    requires SharedInv(env, sh)
    ensures Keeps(env, sh, sh) && SameBirth(sh, sh)
    ensures CarriesAll([], Survivors(env, [])) && AllOffered(sh.log, [])
  {
  }

  lemma PickupStep(env: Env, sh: Shared, attempt: nat, writes: nat, pc: RunPc, c: Choice)
    requires SharedInv(env, sh) && RunInv(env, sh, pc) && (pc.Fetch? || pc.CheckFlag? || pc.Enter?)
    ensures var (next, p) := StepRun(env, sh, attempt, writes, pc, c);
            Keeps(env, sh, next) && SameBirth(sh, next) && p.Run? && RunInv(env, next, p.pc)
  {
    hide Keeps, SharedInv, SameBirth, SameJob, StepPersist, Publication, Do, SetProgress, AllOffered, CarriesAll;
    NothingDone(env, sh);
    if pc.Enter? && Do(sh, Running, Some(attempt), None).Ok? {
      TransitionKeeps(env, sh, Running, Some(attempt), None);
    }
  }

  lemma AgentStep(env: Env, sh: Shared, attempt: nat, writes: nat, pc: RunPc, c: Choice)
    requires SharedInv(env, sh) && RunInv(env, sh, pc) && (pc.Resolve? || pc.Stream? || pc.StepCheck? || pc.StepWrite?)
    ensures var (next, p) := StepRun(env, sh, attempt, writes, pc, c);
            Keeps(env, sh, next) && SameBirth(sh, next) && p.Run? && RunInv(env, next, p.pc)
  {
    hide Keeps, SharedInv, SameBirth, SameJob, StepPersist, Publication, Do, SetProgress, AllOffered, CarriesAll;
    NothingDone(env, sh);
    if pc.Stream? && c.Finish? {
      assert c.output.proposedActions[..0] == [];
    }
    if pc.StepWrite? {
      ProgressKeeps(env, sh, pc.tool, writes + 1);
    }
  }

  lemma DeliveryStep(env: Env, sh: Shared, attempt: nat, writes: nat, pc: RunPc, c: Choice)
    requires SharedInv(env, sh) && RunInv(env, sh, pc) && (pc.Persist? || pc.Publish? || pc.Ended?)
    ensures var (next, p) := StepRun(env, sh, attempt, writes, pc, c);
            Keeps(env, sh, next) && SameBirth(sh, next) && p.Run? && RunInv(env, next, p.pc)
  {
    hide Keeps, SharedInv, SameBirth, SameJob, StepPersist, Publication, Do, SetProgress, AllOffered, CarriesAll;
    NothingDone(env, sh);
    if pc.Persist? {
      PersistStep(env, sh, pc, c);
    } else if pc.Publish? {
      PublishStep(env, sh, pc.rec, pc.output, pc.acc);
    }
  }

  // ---- Runs ----

  /** One action keeps the invariant and only moves the shared state forward. */
  lemma ActKeeps(env: Env, s: Job, a: Action)
    requires Inv(env, s)
    ensures Inv(env, Act(env, s, a)) && Advances(s.sh, Act(env, s, a).sh)
  {
    hide SharedInv, Advances, StepProc, RunInv;
    var t := Act(env, s, a);
    match a
    case Advance(pid, c) =>
      if pid in s.procs { AdvanceKeeps(env, s, pid, c); } else { StandingStill(env, s.sh); }
    case StartCancel(_) => StandingStill(env, s.sh);
    case StartRun(_, _) => StandingStill(env, s.sh); assert RunInv(env, s.sh, Fetch) by { FetchFree(env, s.sh); }
    case _ =>
      EnvironmentKeeps(env, s, a);
      OthersStable(env, s.sh, t.sh, s.procs);
  }

  lemma FetchFree(env: Env, sh: Shared)
    ensures RunInv(env, sh, Fetch)
  {
  }

  lemma StandingStill(env: Env, sh: Shared)
    ensures Advances(sh, sh)
  {
  }

  lemma EnvironmentKeeps(env: Env, s: Job, a: Action)
    requires SharedInv(env, s.sh) && (a.Tick? || a.OtherProposal? || a.DropProposal?)
    ensures var t := Act(env, s, a); Keeps(env, s.sh, t.sh) && SameBirth(s.sh, t.sh) && t.procs == s.procs
  {
    hide SharedInv, Keeps, SameBirth, StepProc;
    OnlyOthersProposals(env, s, a);
    OnlyProposals(env, s.sh, Act(env, s, a).sh);
  }

  lemma OnlyOthersProposals(env: Env, s: Job, a: Action)
    requires SharedInv(env, s.sh) && (a.Tick? || a.OtherProposal? || a.DropProposal?)
    ensures ProposalsInv(env, Act(env, s, a).sh)
  {
    hide KeptInv, GoodResult, OwnProposal, StepProc, RecordInv, TokenInv, CancelInv, ResultInv;
    GoodResultsKept(env, s.sh.log, Act(env, s, a).sh.log);
    OthersKept(env, s, a);
  }

  lemma OthersKept(env: Env, s: Job, a: Action)
    requires KeptInv(s.sh) && (a.Tick? || a.OtherProposal? || a.DropProposal?)
    ensures KeptInv(Act(env, s, a).sh)
  {
    hide StepProc;
  }

  /** The claims of all processes carry over to a state that has only moved forward. */
  lemma OthersStable(env: Env, a: Shared, b: Shared, procs: map<nat, Proc>)
    requires Advances(a, b)
    requires forall pid | pid in procs :: ProcInv(env, a, procs[pid])
    requires SameBirth(a, b) || forall pid | pid in procs :: !procs[pid].Submit?
    ensures forall pid | pid in procs :: ProcInv(env, b, procs[pid])
  {
    forall pid | pid in procs ensures ProcInv(env, b, procs[pid]) {
      if procs[pid].Run? { RunInvStable(env, a, b, procs[pid].pc); }
    }
  }

  lemma AdvanceKeeps(env: Env, s: Job, pid: nat, c: Choice)
    requires Inv(env, s) && pid in s.procs
    ensures var t := Act(env, s, Advance(pid, c)); Inv(env, t) && Advances(s.sh, t.sh)
  {
    hide SharedInv, Advances, StepSubmit, StepCancel, StepRun, RunInv, SubmitInv, SameBirth;
    var p := s.procs[pid];
    var (next, q) := StepProc(env, s.sh, p, c);
    var others := s.procs - {pid};
    match p {
      case Submit(pc) => SubmitStep(env, s.sh, pc, c); SubmitStays(env, s.sh, pc, c);
      case Cancel(pc) => CancelStep(env, s.sh, pc, c);
      case Run(attempt, writes, pc) => RunStep(env, s.sh, attempt, writes, pc, c);
      case Over => NothingDone(env, s.sh);
    }
    OthersStable(env, s.sh, next, others);
    var t := Act(env, s, Advance(pid, c));
    forall i | i in t.procs ensures ProcInv(env, next, t.procs[i]) {
      if i != pid { assert i in others; }
    }
  }

  lemma SubmitStays(env: Env, sh: Shared, pc: SubmitPc, c: Choice)
    ensures var p := StepSubmit(env, sh, pc, c).1; p.Submit? || p.Over?
  {
  }

  lemma {:induction false} ExecKeeps(env: Env, s: Job, actions: seq<Action>)
    requires Inv(env, s)
    ensures Inv(env, Exec(env, s, actions)) && Advances(s.sh, Exec(env, s, actions).sh)
    decreases |actions|
  {
    hide Inv, Advances, Act;
    if actions == [] {
      StandingStill(env, s.sh);
    } else {
      var t := Act(env, s, actions[0]);
      ActKeeps(env, s, actions[0]);
      ExecKeeps(env, t, actions[1..]);
      AdvancesTransitive(s.sh, t.sh, Exec(env, t, actions[1..]).sh);
    }
  }

  lemma InitialInv(env: Env, r: JobRecord, ciphertext: string)
    requires FreshRecord(r)
    ensures Inv(env, Initial(env, r, ciphertext))
  {
  }
}
