/** What holds of a job in every run of its machine. */
module JobTheorems {
  import opened Wrappers
  import opened Schemas
  import opened JobKeys
  import opened JobProtocol
  import opened JobInvariants

  /** No terminal transition in the run is cut short by a crash. */
  predicate Untorn(actions: seq<Action>) {
    forall i | 0 <= i < |actions| && actions[i].Advance? :: !actions[i].choice.Torn?
  }

  /** `s` is what `actions` make of the job submitted with `r`. */
  predicate IsRun(env: Env, s: Job, torn: bool, r: JobRecord, ciphertext: string, actions: seq<Action>) {
    FreshRecord(r) && (torn || Untorn(actions)) && s == Exec(env, Initial(env, r, ciphertext), actions)
  }

  /** The state of some job after some run; `torn` admits crashes inside a terminal transition. */
  ghost predicate ReachableBy(env: Env, s: Job, torn: bool) {
    exists r: JobRecord, ciphertext: string, actions: seq<Action> :: IsRun(env, s, torn, r, ciphertext, actions)
  }

  ghost predicate Reachable(env: Env, s: Job) {
    ReachableBy(env, s, true)
  }

  lemma ReachableInv(env: Env, s: Job, torn: bool := true)
    requires ReachableBy(env, s, torn)
    ensures Inv(env, s)
  {
    hide Inv;
    var r: JobRecord, ciphertext: string, actions: seq<Action> :| IsRun(env, s, torn, r, ciphertext, actions);
    InitialInv(env, r, ciphertext);
    ExecKeeps(env, Initial(env, r, ciphertext), actions);
  }

  // ---- Staged tokens ----

  /** A live token means that its job's record was never created, or is present and not terminal. */
  predicate TokenSafe(sh: Shared) {
    Live(sh.keys.token, sh.now).Some? ==>
      || sh.log.createdAt.None?
      || (Live(sh.keys.record, sh.now).Some? && !Terminal(sh.keys.record.value.value.status))
  }

  ghost predicate AlwaysTokenSafe(env: Env, torn: bool) {
    forall s: Job | ReachableBy(env, s, torn) :: TokenSafe(s.sh)
  }

  /**
   Tokens are safe in every run exactly when results are kept for at least two minutes and no
   crash strikes between a terminal transition's write and its purge.
   */
  lemma TokenSafety(env: Env, torn: bool)
    requires env.adapter.userPat
    ensures AlwaysTokenSafe(env, torn) <==> env.settings.resultTtl >= 120 && !torn
  {
    hide ReachableBy;
    if env.settings.resultTtl < 120 {
      var s := TokenOutlivesRecord(env, torn);
      assert !TokenSafe(s.sh);
    } else if torn {
      var s := TornTokenStays(env);
      assert !TokenSafe(s.sh);
    } else {
      forall s: Job | ReachableBy(env, s, false) ensures TokenSafe(s.sh) {
        ReachableInv(env, s, false);
        NeverTorn(env, s);
      }
    }
  }

  lemma NeverTorn(env: Env, s: Job)
    requires ReachableBy(env, s, false)
    ensures !s.sh.log.torn
  {
    var r: JobRecord, ciphertext: string, actions: seq<Action> :| IsRun(env, s, false, r, ciphertext, actions);
    UntornRun(env, Initial(env, r, ciphertext), actions);
  }

  lemma {:induction false} UntornRun(env: Env, s: Job, actions: seq<Action>)
    requires !s.sh.log.torn && Untorn(actions)
    ensures !Exec(env, s, actions).sh.log.torn
    decreases |actions|
  {
    hide Act;
    if actions != [] {
      UntornAct(env, s, actions[0]);
      assert Untorn(actions[1..]);
      UntornRun(env, Act(env, s, actions[0]), actions[1..]);
    }
  }

  lemma UntornAct(env: Env, s: Job, a: Action)
    requires !s.sh.log.torn && (a.Advance? ==> !a.choice.Torn?)
    ensures !Act(env, s, a).sh.log.torn
  {
    hide Transition, AfterTransition, SetProgress, MakeAction;
  }

  /** A job that nobody picks up: with a shorter lifetime its record goes before its token. */
  lemma TokenOutlivesRecord(env: Env, torn: bool) returns (s: Job)
    requires env.adapter.userPat && env.settings.resultTtl < 120
    ensures ReachableBy(env, s, torn) && !TokenSafe(s.sh)
  {
    hide ReachableBy;
    var s1 := StagedJob(env, torn);
    s := Extend(env, s1, Tick(JobTtl(env.settings)), torn);
  }

  /** A crash between a terminal write and its purge does leave the token behind. */
  lemma TornTokenStays(env: Env) returns (s: Job)
    requires env.adapter.userPat && JobTtl(env.settings) > 0
    ensures Reachable(env, s) && Live(s.sh.keys.token, s.sh.now).Some?
    ensures var r := Live(s.sh.keys.record, s.sh.now); r.Some? && Terminal(r.value.status)
    ensures s.sh.log.createdAt.Some?
  {
    hide ReachableBy;
    var s1 := StagedJob(env, true);
    var s2 := PickUp(env, s1);
    var s3 := Extend(env, s2, Advance(1, Throw));
    assert s3.procs[1] == Run(1, 0, Fail(InternalError));
    s := Extend(env, s3, Advance(1, Torn));
  }

  /** A first runner attempt finds a queued job neither gone nor flagged. */
  lemma PassesChecks(env: Env, s: Job) returns (t: Job)
    requires Reachable(env, s) && 1 !in s.procs && s.sh.keys.cancel.None?
    requires var r := Live(s.sh.keys.record, s.sh.now); r.Some? && r.value.status.Queued?
    ensures Reachable(env, t) && t.sh == s.sh && 1 in t.procs && t.procs[1] == Run(1, 0, Enter)
  {
    hide ReachableBy, Transition, AfterTransition;
    var s1 := Extend(env, s, StartRun(1, 1));
    var s2 := Extend(env, s1, Advance(1, Go));
    assert s2.procs[1] == Run(1, 0, CheckFlag);
    t := Extend(env, s2, Advance(1, Go));
  }

  /** A first runner attempt takes a queued job up. */
  lemma PickUp(env: Env, s: Job) returns (t: Job)
    requires Reachable(env, s) && 1 !in s.procs && s.sh.keys.cancel.None?
    requires var r := Live(s.sh.keys.record, s.sh.now); r.Some? && r.value.status.Queued?
    ensures Reachable(env, t)
    ensures 1 in t.procs && t.procs[1].Run? && t.procs[1].pc.Resolve?
    ensures var k, rec := s.sh.keys, t.procs[1].pc.rec;
            && t.procs[1] == Run(1, 0, Resolve(rec))
            && rec == Moved(k.record.value.value, Running, Some(1), None, s.sh.now)
            && t.sh == s.sh.(keys := k.(record := Some(Entry(rec, k.record.value.expiry))))
  {
    hide ReachableBy;
    var s1 := PassesChecks(env, s);
    t := Extend(env, s1, Advance(1, Go));
  }

  /** Some newly submitted job with a single attempt. */
  function SampleRecord(): JobRecord {
    JobRecord("j", "s", "c", None, "x", 0, 1, Queued, 0, None, None, JobProgress(None, 0), None)
  }

  lemma SampleJob(env: Env, torn: bool) returns (s: Job)
    ensures ReachableBy(env, s, torn) && s == Initial(env, SampleRecord(), "t")
  {
    s := Initial(env, SampleRecord(), "t");
    assert IsRun(env, s, torn, SampleRecord(), "t", []);
  }

  /** That job once its token is staged and its record created, both at time 0. */
  lemma StagedJob(env: Env, torn: bool) returns (s: Job)
    requires env.adapter.userPat
    ensures ReachableBy(env, s, torn) && s.procs == map[0 := Submit(Enqueue)]
    ensures s.sh.keys == JobKeys(Some(Entry(SampleRecord(), JobTtl(env.settings))),
                                 Some(Entry("t", TokenTtl(env.settings))), None, None)
    ensures s.sh.now == 0 && s.sh.log.createdAt.Some? && !s.sh.log.torn
  {
    hide ReachableBy;
    var s0 := SampleJob(env, torn);
    var s1 := Extend(env, s0, Advance(0, Go), torn);
    s := Extend(env, s1, Advance(0, Go), torn);
  }

  lemma Extend(env: Env, s: Job, a: Action, torn: bool := true) returns (t: Job)
    requires ReachableBy(env, s, torn) && (torn || Untorn([a]))
    ensures ReachableBy(env, t, torn) && t == Act(env, s, a)
  {
    hide Act, Initial;
    var r: JobRecord, ciphertext: string, actions: seq<Action> :| IsRun(env, s, torn, r, ciphertext, actions);
    t := Act(env, s, a);
    ExecSnoc(env, Initial(env, r, ciphertext), actions, a);
    if !torn { UntornConcat(actions, a); }
    assert IsRun(env, t, torn, r, ciphertext, actions + [a]);
  }

  lemma UntornConcat(actions: seq<Action>, a: Action)
    requires Untorn(actions) && Untorn([a])
    ensures Untorn(actions + [a])
  {
    assert [a][0] == a;
  }

  lemma {:induction false} ExecSnoc(env: Env, s: Job, actions: seq<Action>, a: Action)
    ensures Exec(env, s, actions + [a]) == Act(env, Exec(env, s, actions), a)
    decreases |actions|
  {
    hide Act;
    if actions == [] {
      assert [a][1..] == [];
    } else {
      assert (actions + [a])[1..] == actions[1..] + [a];
      ExecSnoc(env, Act(env, s, actions[0]), actions[1..], a);
    }
  }

  /** A token that has been purged, or has expired, never comes back. */
  lemma TokenNeverReappears(env: Env, s: Job, actions: seq<Action>)
    requires Reachable(env, s) && s.sh.log.stagedAt.Some? && Live(s.sh.keys.token, s.sh.now).None?
    ensures var t := Exec(env, s, actions); Live(t.sh.keys.token, t.sh.now).None?
  {
    hide Inv;
    ReachableInv(env, s);
    ExecKeeps(env, s, actions);
  }

  // ---- Status ----

  /**
   Terminal states are absorbing under every interleaving: nothing but the progress field
   changes afterwards, whatever late runners and cancels do.
   */
  lemma TerminalAbsorbing(env: Env, s: Job, actions: seq<Action>)
    requires Reachable(env, s) && s.sh.keys.record.Some? && Terminal(s.sh.keys.record.value.value.status)
    ensures var t := Exec(env, s, actions);
            t.sh.keys.record.Some? && Frozen(s.sh.keys.record.value.value, t.sh.keys.record.value.value)
  {
    hide Inv;
    ReachableInv(env, s);
    ExecKeeps(env, s, actions);
  }

  /** Every record in every run is consistent and is still the submitted job's. */
  lemma RecordsWellFormed(env: Env, s: Job)
    requires Reachable(env, s) && s.sh.keys.record.Some?
    ensures var r := s.sh.keys.record.value.value; WellFormed(r, s.sh.now) && SameJob(r, s.sh.log.submitted)
  {
    ReachableInv(env, s);
  }

  /** A completed job has a saved result. */
  lemma CompletedHasResult(env: Env, s: Job)
    requires Reachable(env, s) && s.sh.keys.record.Some? && s.sh.keys.record.value.value.status.Completed?
    ensures s.sh.log.results != []
  {
    ReachableInv(env, s);
  }

  /**
   Every action of every saved result was stored before as a proposal of this job, under its
   owner and correlation id and with a valid payload, and the actions are exactly the agent's
   surviving ones, unchanged and in order.
   */
  lemma ResultsAreStored(env: Env, s: Job, i: nat)
    requires Reachable(env, s) && i < |s.sh.log.results|
    ensures var saved := s.sh.log.results[i];
            && CarriesAll(saved.doc.proposedActions, Survivors(env, saved.output.proposedActions))
            && forall k | 0 <= k < |saved.doc.proposedActions| ::
                 var a := saved.doc.proposedActions[k];
                 Offered(s.sh.log, a) && OwnProposal(env, s.sh.log.submitted, s.sh.log.stored[a.actionId])
  {
    ReachableInv(env, s);
    assert GoodResult(env, s.sh.log, s.sh.log.results[i]);
  }

  /** Every proposal expires exactly one proposal lifetime after the answer it came with was accepted. */
  lemma ProposalLifetime(env: Env, s: Job, id: string)
    requires Reachable(env, s) && id in s.sh.log.stored
    ensures id in s.sh.log.answered && s.sh.log.answered[id] <= s.sh.now
    ensures s.sh.log.stored[id].action.expiresAt == s.sh.log.answered[id] + env.settings.proposalTtl
    ensures s.sh.log.stored[id].action.actionId == id && OwnProposal(env, s.sh.log.submitted, s.sh.log.stored[id])
    ensures id in s.sh.proposals ==>
              && s.sh.proposals[id].value == s.sh.log.stored[id]
              && s.sh.proposals[id].expiry >= s.sh.log.stored[id].action.expiresAt
  {
    hide ReachableBy, RecordInv, TokenInv, CancelInv, ResultInv, OwnProposal;
    ReachableInv(env, s);
  }

  /** A submission that nothing disturbs: token and record are stored and the job is queued. */
  lemma SubmissionAccepted(env: Env, r: JobRecord, ciphertext: string) returns (actions: seq<Action>)
    requires FreshRecord(r)
    ensures var t := Exec(env, Initial(env, r, ciphertext), actions);
            && t.procs == map[0 := Over]
            && t.sh.keys == JobKeys(Some(Entry(r, r.createdAt + JobTtl(env.settings))),
                                    if env.adapter.userPat
                                    then Some(Entry(ciphertext, r.createdAt + TokenTtl(env.settings))) else None,
                                    None, None)
  {
    var go := Advance(0, Go);
    var s := Initial(env, r, ciphertext);
    var t := Act(env, s, go);
    if env.adapter.userPat {
      actions := [go, go, go];
      ThreeSteps(env, s, go, go, go);
    } else {
      actions := [go, go];
      TwoSteps(env, s, go, go);
    }
  }

  /** With the queue down the submission is undone: no token is left, and the record says why. */
  lemma SubmissionUndone(env: Env, r: JobRecord, ciphertext: string) returns (actions: seq<Action>)
    requires FreshRecord(r) && JobTtl(env.settings) > 0
    ensures var t := Exec(env, Initial(env, r, ciphertext), actions);
            && t.procs == map[0 := Over]
            && t.sh.keys == JobKeys(Some(Entry(r.(status := Failed, error := Some(DependencyUnavailable),
                                                  finishedAt := Some(r.createdAt)),
                                               r.createdAt + JobTtl(env.settings))), None, None, None)
  {
    hide Act;
    var go := Advance(0, Go);
    var s := Initial(env, r, ciphertext);
    var opening := if env.adapter.userPat then [go, go] else [go];
    var created := Exec(env, s, opening);
    Created(env, r, ciphertext);
    var closing := [Advance(0, Refuse), go, go];
    Undo(env, created);
    actions := opening + closing;
    ExecJoin(env, s, opening, closing);
  }

  lemma Created(env: Env, r: JobRecord, ciphertext: string)
    requires FreshRecord(r)
    ensures var go := Advance(0, Go);
            var t := Exec(env, Initial(env, r, ciphertext), if env.adapter.userPat then [go, go] else [go]);
            && t.procs == map[0 := Submit(Enqueue)] && t.sh.now == r.createdAt
            && t.sh.keys.record == Some(Entry(r, r.createdAt + JobTtl(env.settings)))
            && t.sh.keys.cancel == None && t.sh.keys.result == None
  {
    var go := Advance(0, Go);
    var s := Initial(env, r, ciphertext);
    if env.adapter.userPat { TwoSteps(env, s, go, go); } else { OneMore(env, s, go); }
  }

  lemma Undo(env: Env, s: Job)
    requires s.procs == map[0 := Submit(Enqueue)] && s.sh.keys.cancel == None && s.sh.keys.result == None
    requires var r := Live(s.sh.keys.record, s.sh.now); r.Some? && FreshRecord(r.value)
    ensures var t := Exec(env, s, [Advance(0, Refuse), Advance(0, Go), Advance(0, Go)]);
            var Entry(r, expiry) := s.sh.keys.record.value;
            && t.procs == map[0 := Over]
            && t.sh.keys == JobKeys(Some(Entry(r.(status := Failed, error := Some(DependencyUnavailable),
                                                  finishedAt := Some(s.sh.now)), expiry)), None, None, None)
  {
    ThreeSteps(env, s, Advance(0, Refuse), Advance(0, Go), Advance(0, Go));
  }

  lemma OneMore(env: Env, s: Job, a: Action)
    ensures Exec(env, s, [a]) == Act(env, s, a)
  {
    hide Act;
    assert [a][1..] == [];
  }

  lemma TwoSteps(env: Env, s: Job, a: Action, b: Action)
    ensures Exec(env, s, [a, b]) == Act(env, Act(env, s, a), b)
  {
    hide Act;
    assert [a, b][1..] == [b];
    OneMore(env, Act(env, s, a), b);
  }

  lemma ThreeSteps(env: Env, s: Job, a: Action, b: Action, c: Action)
    ensures Exec(env, s, [a, b, c]) == Act(env, Act(env, Act(env, s, a), b), c)
  {
    hide Act;
    assert [a, b, c][1..] == [b, c];
    TwoSteps(env, Act(env, s, a), b, c);
  }

  lemma {:induction false} ExecJoin(env: Env, s: Job, a: seq<Action>, b: seq<Action>)
    ensures Exec(env, s, a + b) == Exec(env, Exec(env, s, a), b)
    decreases |a|
  {
    hide Act;
    if a == [] {
      assert a + b == b;
    } else {
      assert (a + b)[1..] == a[1..] + b;
      ExecJoin(env, Act(env, s, a[0]), a[1..], b);
    }
  }

  // ---- Lifetimes ----

  /** A job's expiry is fixed when it is created, whatever is written to it later. */
  lemma LifetimeFixed(env: Env, s: Job)
    requires Reachable(env, s) && s.sh.keys.record.Some?
    ensures s.sh.log.createdAt.Some?
    ensures s.sh.keys.record.value.expiry == s.sh.log.createdAt.value
                                             + env.settings.resultTtl
                                             + env.settings.jobTimeout * env.settings.jobMaxAttempts
  {
    ReachableInv(env, s);
  }

  /** At every moment at which the result can be read, the job can be polled. */
  ghost predicate ResultCovered(k: JobKeys, from: int) {
    forall t: int | t >= from :: Live(k.result, t).Some? ==> Live(k.record, t).Some?
  }

  /** The job outlives its result exactly when the result was saved within the job's run budget. */
  lemma ResultLifetime(env: Env, s: Job)
    requires Reachable(env, s) && s.sh.log.results != [] && env.settings.resultTtl > 0
    ensures var saved := s.sh.log.results[|s.sh.log.results| - 1].savedAt;
            s.sh.log.createdAt.Some? &&
            (ResultCovered(s.sh.keys, saved) <==>
               saved <= s.sh.log.createdAt.value + env.settings.jobTimeout * env.settings.jobMaxAttempts)
  {
    ReachableInv(env, s);
    var last := s.sh.log.results[|s.sh.log.results| - 1];
    var t := last.savedAt + env.settings.resultTtl - 1;
    assert Live(s.sh.keys.result, t).Some?;
    var record := s.sh.keys.record;
    assert Live(record, t).Some? <==> t < record.value.expiry;
  }

  /** A streaming attempt whose agent ends with no proposals completes the job. */
  lemma Deliver(env: Env, s: Job, rec: JobRecord) returns (t: Job)
    requires Reachable(env, s) && 1 in s.procs && s.procs[1] == Run(1, 0, Stream(rec))
    requires var r := Live(s.sh.keys.record, s.sh.now); r.Some? && r.value.status.Running?
    ensures Reachable(env, t)
    ensures t.sh.keys.record.Some? && t.sh.keys.record.value.value.status.Completed?
    ensures t.sh.log.createdAt == s.sh.log.createdAt
    ensures t.sh.log.results != [] && t.sh.log.results[|t.sh.log.results| - 1].savedAt == s.sh.now
  {
    hide ReachableBy;
    var output := AgentResult("", [], map[], []);
    var s1 := Extend(env, s, Advance(1, Finish(output)));
    var s2 := Extend(env, s1, Advance(1, Go));
    assert s2.procs[1] == Run(1, 0, Publish(rec, output, []));
    var s3 := Extend(env, s2, Advance(1, Go));
    assert s3.procs[1] == Run(1, 0, Complete(rec));
    t := Extend(env, s3, Advance(1, Go));
    assert t.sh.log.results == s3.sh.log.results;
  }

  /** A job picked up after its run budget has passed: its result outlives it. */
  lemma LateResult(env: Env) returns (s: Job)
    requires !env.adapter.userPat && env.settings.resultTtl >= 2
    ensures Reachable(env, s) && s.sh.log.results != []
    ensures s.sh.keys.record.Some? && s.sh.keys.record.value.value.status.Completed?
    ensures !ResultCovered(s.sh.keys, s.sh.log.results[|s.sh.log.results| - 1].savedAt)
  {
    hide ReachableBy;
    var budget := env.settings.jobTimeout * env.settings.jobMaxAttempts;
    var s0 := SampleJob(env, true);
    var s1 := Extend(env, s0, Advance(0, Go));
    var s2 := Extend(env, s1, Tick(budget + 1));
    var s3 := PickUp(env, s2);
    var rec := s3.procs[1].pc.rec;
    var s4 := Extend(env, s3, Advance(1, Go));
    assert s4.procs[1] == Run(1, 0, Stream(rec));
    s := Deliver(env, s4, rec);
    ResultLifetime(env, s);
  }

  // ---- Cancellation of a running job ----

  /** The record is live and RUNNING and its cancel flag is set. */
  predicate Flagged(sh: Shared) {
    var r := Live(sh.keys.record, sh.now);
    r.Some? && r.value.status.Running? && CancelRequested(sh.keys, sh.now)
  }

  predicate RunningNow(sh: Shared) {
    var r := Live(sh.keys.record, sh.now);
    r.Some? && r.value.status.Running?
  }

  /** Progress writes a process has made, and those it can still make once the flag is set. */
  function WriteBound(p: Proc): nat {
    if p.Run? then p.writes + (if p.pc.StepWrite? then 1 else 0) else 0
  }

  /** A runner that has not passed the pickup check. */
  predicate BeforePickup(p: Proc) {
    p.Run? ==> p.pc.Fetch? || p.pc.CheckFlag? || p.pc.Discard? || p.pc.Ended?
  }

  lemma FlagOutlivesRecord(env: Env, s: Job)
    requires Reachable(env, s) && s.sh.keys.cancel.Some?
    ensures s.sh.keys.record.Some? && s.sh.keys.cancel.value.expiry >= s.sh.keys.record.value.expiry
  {
    ReachableInv(env, s);
  }

  /** Only a terminal transition takes the flag away. */
  lemma FlagNotDropped(env: Env, sh: Shared, p: Proc, c: Choice)
    requires sh.keys.cancel.Some?
    ensures var next := StepProc(env, sh, p, c).0;
            next.keys.cancel.Some? || (next.keys.record.Some? && Terminal(next.keys.record.value.value.status))
  {
    hide MakeAction;
  }

  lemma FlagKept(env: Env, s: Job, a: Action)
    requires Inv(env, s) && Flagged(s.sh) && RunningNow(Act(env, s, a).sh)
    ensures Flagged(Act(env, s, a).sh)
  {
    hide StepProc, ProposalsInv, RunInv;
    ActKeeps(env, s, a);
    if a.Advance? && a.pid in s.procs { FlagNotDropped(env, s.sh, s.procs[a.pid], a.choice); }
  }

  lemma BoundKept(env: Env, s: Job, a: Action, pid: nat)
    requires Inv(env, s) && Flagged(s.sh) && pid in s.procs
    ensures var t := Act(env, s, a);
            pid in t.procs && WriteBound(t.procs[pid]) <= WriteBound(s.procs[pid])
            && (BeforePickup(s.procs[pid]) ==> BeforePickup(t.procs[pid]))
  {
    hide Inv, Publication, MakeAction, SaveProposal;
  }

  /**
   From the moment a running job's cancel flag is set, and as long as the job is still
   RUNNING: the flag stays, each runner writes progress at most once more, and no runner that
   has not passed the pickup check, nor any that starts later, enters RUNNING.
   */
  lemma {:induction false} CancelTakesHold(env: Env, s: Job, actions: seq<Action>)
    requires Inv(env, s) && Flagged(s.sh) && RunningNow(Exec(env, s, actions).sh)
    ensures var t := Exec(env, s, actions);
            && Flagged(t.sh)
            && (forall pid | pid in s.procs ::
                  pid in t.procs && WriteBound(t.procs[pid]) <= WriteBound(s.procs[pid])
                  && (BeforePickup(s.procs[pid]) ==> BeforePickup(t.procs[pid])))
            && (forall pid | pid in t.procs && pid !in s.procs :: BeforePickup(t.procs[pid]))
    decreases |actions|
  {
    hide Inv, Act, Flagged, WriteBound, BeforePickup, Advances;
    if actions != [] {
      var a := actions[0];
      var m, t := Act(env, s, a), Exec(env, s, actions);
      ActKeeps(env, s, a);
      ExecKeeps(env, m, actions[1..]);
      StillRunning(env, s, m, t);
      FlagKept(env, s, a);
      CancelTakesHold(env, m, actions[1..]);
      forall pid | pid in s.procs
        ensures pid in m.procs && WriteBound(m.procs[pid]) <= WriteBound(s.procs[pid])
                && (BeforePickup(s.procs[pid]) ==> BeforePickup(m.procs[pid]))
      {
        BoundKept(env, s, a, pid);
      }
      forall pid | pid in m.procs && pid !in s.procs ensures BeforePickup(m.procs[pid]) {
        NewcomerBeforePickup(env, s, a, pid);
      }
    }
  }

  lemma NewcomerBeforePickup(env: Env, s: Job, a: Action, pid: nat)
    requires pid in Act(env, s, a).procs && pid !in s.procs
    ensures BeforePickup(Act(env, s, a).procs[pid])
  {
    hide StepProc;
  }

  /** Between two moments at which a job is RUNNING it is RUNNING throughout. */
  lemma StillRunning(env: Env, s: Job, m: Job, t: Job)
    requires Inv(env, m) && Flagged(s.sh) && Advances(s.sh, m.sh) && Advances(m.sh, t.sh) && RunningNow(t.sh)
    ensures RunningNow(m.sh)
  {
    hide ProposalsInv;
    var r := m.sh.keys.record.value.value;
    assert !r.status.Queued?;
  }
}
