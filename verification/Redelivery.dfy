/**
 A runner attempt driven by a script of what the agent does, with nothing else in flight but
 the cancels the script brings in, and the sequential redelivery of attempts. Both are runs
 of the job's machine.
 */
module Redelivery {
  import opened Wrappers
  import opened Schemas
  import opened JobKeys
  import opened JobProtocol
  import opened JobInvariants

  /** A cancel request handled from start to end without interruption. */
  function CancelCall(env: Env, sh: Shared): Shared {
    sh.(keys := CancelKeys(env.settings, sh.keys, sh.now))
  }

  /** One agent step: the time it takes, whether the user cancels meanwhile, the last tool called. */
  datatype AgentStep = AgentStep(took: nat, cancelled: bool, tool: Option<string>)

  /** How the agent ends; `ids` are the fresh action ids at hand. */
  datatype AgentEnd = Answers(output: AgentResult, ids: seq<string>) | Raises | RunsOut

  datatype Script = Script(credentialsFail: bool, steps: seq<AgentStep>, end: AgentEnd)

  /** A machine step of the runner, with the agent step it may stand for. */
  datatype Beat = Beat(took: nat, cancelled: bool, choice: Choice)

  function Plain(c: Choice): Beat {
    Beat(0, false, c)
  }

  function Play(env: Env, sh: Shared, p: Proc, b: Beat): (Shared, Proc) {
    if !p.Run? then (sh, p)
    else
      var ready :=
        if p.pc.Stream? then
          var later := sh.(now := sh.now + b.took);
          if b.cancelled then CancelCall(env, later) else later
        else sh;
      StepRun(env, ready, p.attempt, p.writes, p.pc, b.choice)
  }

  function Drive(env: Env, sh: Shared, p: Proc, beats: seq<Beat>): (Shared, Proc)
    decreases |beats|
  {
    if beats == [] then (sh, p)
    else
      var (next, q) := Play(env, sh, p, beats[0]);
      Drive(env, next, q, beats[1..])
  }

  // ---- The beats of a script ----

  const OPENING: seq<Beat> := [Plain(Go), Plain(Go), Plain(Go)]

  function CredentialBeats(script: Script): seq<Beat> {
    [Plain(if script.credentialsFail then Throw else Go), Plain(Go)]
  }

  function StepBeats(steps: seq<AgentStep>): seq<Beat> {
    if steps == [] then []
    else [Beat(steps[0].took, steps[0].cancelled, Yield(steps[0].tool)), Plain(Go), Plain(Go)] + StepBeats(steps[1..])
  }

  function MintBeats(ids: seq<string>): seq<Beat> {
    if ids == [] then [] else [Plain(Mint(ids[0]))] + MintBeats(ids[1..])
  }

  const CLOSING: seq<Beat> := [Plain(Go), Plain(Go), Plain(Go), Plain(Go)]

  /** An agent that yields nothing has no output, which is an ordinary exception. */
  function EndBeats(script: Script): seq<Beat> {
    match script.end
    case Answers(output, ids) =>
      if script.steps == [] then [Plain(Throw), Plain(Go)]
      else [Plain(Finish(output))] + MintBeats(ids) + CLOSING
    case Raises => [Plain(Throw), Plain(Go)]
    case RunsOut => [Plain(TimeOut), Plain(Go)]
  }

  function Beats(script: Script): seq<Beat> {
    OPENING + (CredentialBeats(script) + (StepBeats(script.steps) + EndBeats(script)))
  }

  lemma {:induction false} DriveConcat(env: Env, sh: Shared, p: Proc, a: seq<Beat>, b: seq<Beat>)
    ensures var (next, q) := Drive(env, sh, p, a);
            Drive(env, sh, p, a + b) == Drive(env, next, q, b)
    decreases |a|
  {
    hide Play;
    if a == [] {
      assert a + b == b;
    } else {
      var (next, q) := Play(env, sh, p, a[0]);
      assert (a + b)[1..] == a[1..] + b;
      DriveConcat(env, next, q, a[1..], b);
    }
  }

  /** Nothing happens once an attempt has ended. */
  lemma {:induction false} DriveEnded(env: Env, sh: Shared, p: Proc, beats: seq<Beat>)
    requires p.Run? && p.pc.Ended?
    ensures Drive(env, sh, p, beats) == (sh, p)
    decreases |beats|
  {
    if beats != [] { DriveEnded(env, sh, p, beats[1..]); }
  }

  // ---- Driven attempts are runs of the machine ----

  lemma {:induction false} ExecConcat(env: Env, s: Job, a: seq<Action>, b: seq<Action>)
    ensures Exec(env, s, a + b) == Exec(env, Exec(env, s, a), b)
    decreases |a|
  {
    hide Act;
    if a == [] {
      assert a + b == b;
    } else {
      assert (a + b)[1..] == a[1..] + b;
      ExecConcat(env, Act(env, s, a[0]), a[1..], b);
    }
  }

  lemma ExecOne(env: Env, s: Job, a: Action)
    ensures Exec(env, s, [a]) == Act(env, s, a)
  {
    hide Act;
    assert [a][1..] == [];
  }

  /** An uninterrupted cancel is four steps of a cancel process. */
  lemma CancelIsRun(env: Env, s: Job, q: nat) returns (actions: seq<Action>)
    requires q !in s.procs
    ensures var t := Exec(env, s, actions);
            t.sh == CancelCall(env, s.sh) && t.procs.Keys == s.procs.Keys + {q}
            && forall i | i in s.procs :: t.procs[i] == s.procs[i]
  {
    var go := Advance(q, Go);
    var s1 := Act(env, s, StartCancel(q));
    var s2 := Act(env, s1, go);
    var s3 := Act(env, s2, go);
    var s4 := Act(env, s3, go);
    var s5 := Act(env, s4, go);
    actions := [StartCancel(q)] + ([go] + ([go] + ([go] + [go])));
    ExecConcat(env, s, [StartCancel(q)], [go] + ([go] + ([go] + [go])));
    ExecOne(env, s, StartCancel(q));
    ExecConcat(env, s1, [go], [go] + ([go] + [go]));
    ExecOne(env, s1, go);
    ExecConcat(env, s2, [go], [go] + [go]);
    ExecOne(env, s2, go);
    ExecConcat(env, s3, [go], [go]);
    ExecOne(env, s3, go);
    ExecOne(env, s4, go);
  }

  lemma FreshPid(procs: map<nat, Proc>) returns (q: nat)
    ensures q !in procs
  {
    q := LargestBelow(procs.Keys);
    assert forall x | x in procs :: x in procs.Keys && x < q;
  }

  lemma {:induction false} LargestBelow(s: set<nat>) returns (q: nat)
    ensures forall x | x in s :: x < q
    decreases |s|
  {
    if s == {} {
      q := 0;
    } else {
      var x :| x in s;
      var r := LargestBelow(s - {x});
      q := if r <= x then x + 1 else r;
      forall y | y in s ensures y < q {
        if y != x { assert y in s - {x}; }
      }
    }
  }

  /** Every driven attempt is a run of the machine in which that attempt is the process `pid`. */
  lemma {:induction false} DriveIsRun(env: Env, s: Job, pid: nat, beats: seq<Beat>) returns (actions: seq<Action>)
    requires pid in s.procs && s.procs[pid].Run?
    ensures var t, (sh, p) := Exec(env, s, actions), Drive(env, s.sh, s.procs[pid], beats);
            pid in t.procs && t.procs[pid] == p && t.sh == sh
    decreases |beats|
  {
    if beats == [] {
      actions := [];
    } else {
      var first := PlayIsRun(env, s, pid, beats[0]);
      var m := Exec(env, s, first);
      var rest := DriveIsRun(env, m, pid, beats[1..]);
      actions := first + rest;
      ExecConcat(env, s, first, rest);
    }
  }

  lemma PlayIsRun(env: Env, s: Job, pid: nat, b: Beat) returns (actions: seq<Action>)
    requires pid in s.procs && s.procs[pid].Run?
    ensures var t, (sh, p) := Exec(env, s, actions), Play(env, s.sh, s.procs[pid], b);
            pid in t.procs && t.procs[pid] == p && t.sh == sh && p.Run?
  {
    hide StepRun, CancelCall;
    StaysRun(env, s, pid, b);
    var step := Advance(pid, b.choice);
    if !s.procs[pid].pc.Stream? {
      actions := [step];
      ExecOne(env, s, step);
    } else {
      var s1 := Act(env, s, Tick(b.took));
      ExecOne(env, s, Tick(b.took));
      if b.cancelled {
        var q := FreshPid(s1.procs);
        var cancel := CancelIsRun(env, s1, q);
        var s2 := Exec(env, s1, cancel);
        actions := [Tick(b.took)] + (cancel + [step]);
        ExecConcat(env, s, [Tick(b.took)], cancel + [step]);
        ExecConcat(env, s1, cancel, [step]);
        ExecOne(env, s2, step);
      } else {
        actions := [Tick(b.took)] + [step];
        ExecConcat(env, s, [Tick(b.took)], [step]);
        ExecOne(env, s1, step);
      }
    }
  }

  lemma StaysRun(env: Env, s: Job, pid: nat, b: Beat)
    requires pid in s.procs && s.procs[pid].Run?
    ensures Play(env, s.sh, s.procs[pid], b).1.Run?
  {
    hide CancelCall;
  }

  // ---- What an attempt comes to ----

  datatype Kind = Completes | TimesOut | Cancels | Fails | Discards

  predicate UserCancels(steps: seq<AgentStep>) {
    exists i | 0 <= i < |steps| :: steps[i].cancelled
  }

  function Elapsed(steps: seq<AgentStep>): nat {
    if steps == [] then 0 else steps[0].took + Elapsed(steps[1..])
  }

  function KindOf(script: Script, credentials: bool): Kind {
    if script.credentialsFail || !credentials then Fails
    else if UserCancels(script.steps) then Cancels
    else
      match script.end
      case Answers(_, _) => if script.steps == [] then Fails else Completes
      case Raises => Fails
      case RunsOut => TimesOut
  }

  predicate FreshIds(sh: Shared, end: AgentEnd) {
    end.Answers? ==>
      && |end.ids| == |end.output.proposedActions|
      && (forall i | 0 <= i < |end.ids| :: Fresh(sh, end.ids[i]))
      && (forall i, j | 0 <= i < j < |end.ids| :: end.ids[i] != end.ids[j])
  }

  /** A live, open record without a cancel flag, and the time until `horizon` within its lifetime. */
  predicate OpenUntil(sh: Shared, horizon: int) {
    && sh.keys.record.Some? && sh.now <= horizon < sh.keys.record.value.expiry
    && !Terminal(sh.keys.record.value.value.status)
    && sh.keys.record.value.value.error.None?
    && sh.keys.cancel.None?
  }

  function Current(sh: Shared): JobRecord
    requires sh.keys.record.Some?
  {
    sh.keys.record.value.value
  }

  /** Same state but for the record and the clock; the token and the flag are as they were. */
  predicate OnlyRecord(a: Shared, b: Shared) {
    && b.keys == a.keys.(record := b.keys.record)
    && b.keys.record.Some? && a.keys.record.Some?
    && b.keys.record.value.expiry == a.keys.record.value.expiry
    && b.proposals == a.proposals && b.log == a.log && a.now <= b.now
  }

  /** The attempt was entered and is still open. */
  predicate RunningAt(sh: Shared, attempt: nat, maxAttempts: nat) {
    && sh.keys.record.Some?
    && Current(sh).status.Running? && Current(sh).attempt == attempt && Current(sh).maxAttempts == maxAttempts
    && Current(sh).error.None?
  }

  /** The job is over with this verdict, and neither token nor flag is left. */
  predicate Settled(sh: Shared, attempt: nat, status: JobStatus, error: Option<ErrorCode>) {
    && sh.keys.record.Some?
    && Terminal(status)
    && Current(sh).status == status && Current(sh).attempt == attempt && Current(sh).error == error
    && sh.keys.token.None? && sh.keys.cancel.None?
  }

  lemma DriveOne(env: Env, sh: Shared, p: Proc, a: Beat)
    ensures Drive(env, sh, p, [a]) == Play(env, sh, p, a)
  {
    hide Play;
    var (s1, p1) := Play(env, sh, p, a);
    assert [a][1..] == [];
    assert Drive(env, s1, p1, []) == (s1, p1);
  }

  lemma DriveTwo(env: Env, sh: Shared, p: Proc, a: Beat, b: Beat)
    ensures var (s1, p1) := Play(env, sh, p, a);
            Drive(env, sh, p, [a, b]) == Play(env, s1, p1, b)
  {
    hide Play;
    var (s1, p1) := Play(env, sh, p, a);
    assert [a, b][1..] == [b];
    DriveOne(env, s1, p1, b);
  }

  lemma DriveThree(env: Env, sh: Shared, p: Proc, a: Beat, b: Beat, c: Beat)
    ensures var (s1, p1) := Play(env, sh, p, a);
            var (s2, p2) := Play(env, s1, p1, b);
            Drive(env, sh, p, [a, b, c]) == Play(env, s2, p2, c)
  {
    hide Play;
    var (s1, p1) := Play(env, sh, p, a);
    assert [a, b, c][1..] == [b, c];
    DriveTwo(env, s1, p1, b, c);
  }

  /** Picking the job up: the record is read, the flag is not set, RUNNING is entered. */
  lemma OpeningPhase(env: Env, sh: Shared, attempt: nat)
    requires OpenUntil(sh, sh.now)
    ensures var (next, p) := Drive(env, sh, Run(attempt, 0, Fetch), OPENING);
            && p.Run? && p.pc.Resolve? && p == Run(attempt, 0, Resolve(Current(next)))
            && OnlyRecord(sh, next) && next.now == sh.now
            && RunningAt(next, attempt, Current(sh).maxAttempts)
  {
    DriveThree(env, sh, Run(attempt, 0, Fetch), Plain(Go), Plain(Go), Plain(Go));
  }

  lemma CredentialPhase(env: Env, sh: Shared, attempt: nat, rec: JobRecord, script: Script)
    requires OpenUntil(sh, sh.now) && RunningAt(sh, attempt, rec.maxAttempts)
    ensures var credentials := !env.adapter.userPat || Live(sh.keys.token, sh.now).Some?;
            var (next, p) := Drive(env, sh, Run(attempt, 0, Resolve(rec)), CredentialBeats(script));
            if !script.credentialsFail && credentials then
              next == sh && p == Run(attempt, 0, Stream(rec))
            else if attempt < rec.maxAttempts then
              next == sh && p == Run(attempt, 0, Ended(Retry))
            else p == Run(attempt, 0, Ended(Returned)) && Settled(next, attempt, Failed, Some(InternalError))
  {
    DriveTwo(env, sh, Run(attempt, 0, Resolve(rec)),
             Plain(if script.credentialsFail then Throw else Go), Plain(Go));
  }

  /** One agent step: checked against the flag, then recorded as progress. */
  lemma OneStep(env: Env, sh: Shared, attempt: nat, n: nat, rec: JobRecord, step: AgentStep)
    requires OpenUntil(sh, sh.now + step.took) && RunningAt(sh, attempt, rec.maxAttempts)
    requires JobTtl(env.settings) > 0
    ensures var (next, p) := Drive(env, sh, Run(attempt, n, Stream(rec)),
                                   [Beat(step.took, step.cancelled, Yield(step.tool)), Plain(Go), Plain(Go)]);
            if step.cancelled then
              p == Run(attempt, n, Ended(Returned)) && Settled(next, attempt, Cancelled, None)
            else
              && p == Run(attempt, n + 1, Stream(rec))
              && OnlyRecord(sh, next) && next.now == sh.now + step.took && Frozen(Current(sh), Current(next))
              && Current(next).progress == JobProgress(step.tool, n + 1)
  {
    DriveThree(env, sh, Run(attempt, n, Stream(rec)),
               Beat(step.took, step.cancelled, Yield(step.tool)), Plain(Go), Plain(Go));
  }

  lemma {:induction false} StreamPhase(env: Env, sh: Shared, attempt: nat, n: nat, rec: JobRecord,
                                       steps: seq<AgentStep>)
    requires OpenUntil(sh, sh.now + Elapsed(steps)) && RunningAt(sh, attempt, rec.maxAttempts)
    requires JobTtl(env.settings) > 0
    ensures var (next, p) := Drive(env, sh, Run(attempt, n, Stream(rec)), StepBeats(steps));
            if UserCancels(steps) then
              p.Run? && p.pc == Ended(Returned) && Settled(next, attempt, Cancelled, None)
            else
              && p == Run(attempt, n + |steps|, Stream(rec))
              && OnlyRecord(sh, next) && next.now == sh.now + Elapsed(steps) && Frozen(Current(sh), Current(next))
    decreases |steps|
  {
    hide Play, Settled;
    var start := Run(attempt, n, Stream(rec));
    if steps != [] {
      var first := [Beat(steps[0].took, steps[0].cancelled, Yield(steps[0].tool)), Plain(Go), Plain(Go)];
      var (next, p) := Drive(env, sh, start, first);
      OneStep(env, sh, attempt, n, rec, steps[0]);
      DriveConcat(env, sh, start, first, StepBeats(steps[1..]));
      CancelSplit(steps);
      if steps[0].cancelled {
        DriveEnded(env, next, p, StepBeats(steps[1..]));
      } else {
        StreamPhase(env, next, attempt, n + 1, rec, steps[1..]);
      }
    }
  }

  /** The progress that is left tells how many steps were taken and the tool of the last. */
  lemma {:induction false} ProgressRecorded(env: Env, sh: Shared, attempt: nat, n: nat, rec: JobRecord,
                                            steps: seq<AgentStep>)
    requires OpenUntil(sh, sh.now + Elapsed(steps)) && RunningAt(sh, attempt, rec.maxAttempts)
    requires JobTtl(env.settings) > 0 && steps != [] && !UserCancels(steps)
    ensures var next := Drive(env, sh, Run(attempt, n, Stream(rec)), StepBeats(steps)).0;
            && next.keys.record.Some?
            && Current(next).progress == JobProgress(steps[|steps| - 1].tool, n + |steps|)
    decreases |steps|
  {
    hide Play;
    var start := Run(attempt, n, Stream(rec));
    var first := [Beat(steps[0].took, steps[0].cancelled, Yield(steps[0].tool)), Plain(Go), Plain(Go)];
    var (next, p) := Drive(env, sh, start, first);
    CancelSplit(steps);
    OneStep(env, sh, attempt, n, rec, steps[0]);
    DriveConcat(env, sh, start, first, StepBeats(steps[1..]));
    if |steps| > 1 {
      ProgressRecorded(env, next, attempt, n + 1, rec, steps[1..]);
    } else {
      assert steps[1..] == [] && StepBeats(steps[1..]) == [];
    }
  }

  lemma CancelSplit(steps: seq<AgentStep>)
    requires steps != []
    ensures UserCancels(steps) <==> steps[0].cancelled || UserCancels(steps[1..])
  {
    if UserCancels(steps) {
      var i :| 0 <= i < |steps| && steps[i].cancelled;
      assert i > 0 ==> steps[1..][i - 1].cancelled;
    }
    if UserCancels(steps[1..]) {
      var i :| 0 <= i < |steps[1..]| && steps[1..][i].cancelled;
      assert steps[i + 1].cancelled;
    }
  }

  /** Storing the survivors touches neither the job's keys nor the clock. */
  lemma {:induction false} PersistPhase(env: Env, sh: Shared, attempt: nat, n: nat, pc: RunPc, ids: seq<string>)
    requires pc.Persist? && |ids| + pc.next == |pc.output.proposedActions|
    requires FreshIdSeq(sh, ids)
    ensures var (next, p) := Drive(env, sh, Run(attempt, n, pc), MintBeats(ids));
            && p.Run? && p.attempt == attempt && p.writes == n && p.pc.Persist?
            && p.pc.rec == pc.rec && p.pc.output == pc.output && p.pc.next == |pc.output.proposedActions|
            && next.keys == sh.keys && next.now == sh.now
    decreases |ids|
  {
    if ids != [] {
      var p := Run(attempt, n, pc);
      var (next, q) := Play(env, sh, p, Plain(Mint(ids[0])));
      assert q.pc.next == pc.next + 1 && next.keys == sh.keys;
      assert MintBeats(ids)[1..] == MintBeats(ids[1..]);
      PersistPhase(env, next, attempt, n, q.pc, ids[1..]);
    }
  }

  predicate FreshIdSeq(sh: Shared, ids: seq<string>) {
    && (forall i | 0 <= i < |ids| :: Fresh(sh, ids[i]))
    && (forall i, j | 0 <= i < j < |ids| :: ids[i] != ids[j])
  }

  /** The agent's answer is staged, published and the job completed. */
  lemma ClosingPhase(env: Env, sh: Shared, attempt: nat, n: nat, rec: JobRecord, output: AgentResult, ids: seq<string>)
    requires OpenUntil(sh, sh.now) && RunningAt(sh, attempt, rec.maxAttempts)
    requires FreshIds(sh, Answers(output, ids))
    ensures var beats := [Plain(Finish(output))] + MintBeats(ids) + CLOSING;
            var (next, p) := Drive(env, sh, Run(attempt, n, Stream(rec)), beats);
            p.Run? && p.pc == Ended(Returned) && Settled(next, attempt, Completed, None) && next.now == sh.now
  {
    hide Play, MintBeats;
    var start := Run(attempt, n, Stream(rec));
    var (s1, p1) := Play(env, sh, start, Plain(Finish(output)));
    FinishStep(env, sh, attempt, n, rec, output);
    DriveOne(env, sh, start, Plain(Finish(output)));
    DriveConcat(env, sh, start, [Plain(Finish(output))], MintBeats(ids));
    PersistPhase(env, s1, attempt, n, p1.pc, ids);
    DriveConcat(env, sh, start, [Plain(Finish(output))] + MintBeats(ids), CLOSING);
    var (s2, p2) := Drive(env, s1, p1, MintBeats(ids));
    CompletionPhase(env, s2, attempt, n, p2.pc);
  }

  lemma FinishStep(env: Env, sh: Shared, attempt: nat, n: nat, rec: JobRecord, output: AgentResult)
    ensures Play(env, sh, Run(attempt, n, Stream(rec)), Plain(Finish(output)))
         == (sh, Run(attempt, n, Persist(rec, output, sh.now, 0, [])))
  {
  }

  /** The proposals are all staged: the result is saved. */
  lemma PublishPhase(env: Env, sh: Shared, attempt: nat, n: nat, pc: RunPc)
    requires pc.Persist? && pc.next == |pc.output.proposedActions|
    requires OpenUntil(sh, sh.now) && RunningAt(sh, attempt, pc.rec.maxAttempts)
    ensures var (next, p) := Drive(env, sh, Run(attempt, n, pc), [Plain(Go), Plain(Go)]);
            && p == Run(attempt, n, Complete(pc.rec)) && next.now == sh.now
            && OpenUntil(next, next.now) && RunningAt(next, attempt, pc.rec.maxAttempts)
  {
    hide Transition;
    DriveTwo(env, sh, Run(attempt, n, pc), Plain(Go), Plain(Go));
  }

  lemma CompletionPhase(env: Env, sh: Shared, attempt: nat, n: nat, pc: RunPc)
    requires pc.Persist? && pc.next == |pc.output.proposedActions|
    requires OpenUntil(sh, sh.now) && RunningAt(sh, attempt, pc.rec.maxAttempts)
    ensures var (next, p) := Drive(env, sh, Run(attempt, n, pc), CLOSING);
            p.Run? && p.pc == Ended(Returned) && Settled(next, attempt, Completed, None) && next.now == sh.now
  {
    hide Play, Settled, OpenUntil, RunningAt;
    var start := Run(attempt, n, pc);
    assert CLOSING == [Plain(Go), Plain(Go)] + [Plain(Go), Plain(Go)];
    DriveConcat(env, sh, start, [Plain(Go), Plain(Go)], [Plain(Go), Plain(Go)]);
    PublishPhase(env, sh, attempt, n, pc);
    var (next, p) := Drive(env, sh, start, [Plain(Go), Plain(Go)]);
    EnterCompletedPhase(env, next, attempt, n, pc.rec);
  }

  lemma EnterCompletedPhase(env: Env, sh: Shared, attempt: nat, n: nat, rec: JobRecord)
    requires OpenUntil(sh, sh.now) && RunningAt(sh, attempt, rec.maxAttempts)
    ensures var (next, p) := Drive(env, sh, Run(attempt, n, Complete(rec)), [Plain(Go), Plain(Go)]);
            p == Run(attempt, n, Ended(Returned)) && Settled(next, attempt, Completed, None) && next.now == sh.now
  {
    DriveTwo(env, sh, Run(attempt, n, Complete(rec)), Plain(Go), Plain(Go));
  }

  /** An ordinary exception or a timeout while the agent is running. */
  lemma FailurePhase(env: Env, sh: Shared, attempt: nat, n: nat, rec: JobRecord, timeout: bool)
    requires OpenUntil(sh, sh.now) && RunningAt(sh, attempt, rec.maxAttempts)
    ensures var beats := [Plain(if timeout then TimeOut else Throw), Plain(Go)];
            var (next, p) := Drive(env, sh, Run(attempt, n, Stream(rec)), beats);
            if timeout then
              && p == Run(attempt, n, Ended(Returned))
              && Settled(next, attempt, Failed, Some(JobTimeout)) && next.now == sh.now
            else if attempt < rec.maxAttempts then
              p == Run(attempt, n, Ended(Retry)) && next == sh
            else
              && p == Run(attempt, n, Ended(Returned))
              && Settled(next, attempt, Failed, Some(InternalError)) && next.now == sh.now
  {
    DriveTwo(env, sh, Run(attempt, n, Stream(rec)), Plain(if timeout then TimeOut else Throw), Plain(Go));
  }

  function Attempt(env: Env, sh: Shared, attempt: nat, script: Script): (Shared, Proc) {
    Drive(env, sh, Run(attempt, 0, Fetch), Beats(script))
  }

  predicate CredentialsAt(env: Env, token: Option<Entry<string>>, t: int) {
    !env.adapter.userPat || Live(token, t).Some?
  }

  predicate HasCredentials(env: Env, sh: Shared) {
    CredentialsAt(env, sh.keys.token, sh.now)
  }

  /** How long an attempt runs that fails: without credentials the agent is not started. */
  function Spent(script: Script, credentials: bool): nat {
    if script.credentialsFail || !credentials then 0 else Elapsed(script.steps)
  }

  /** What one undisturbed attempt leaves, by the kind of its script. */
  predicate AttemptLeaves(sh: Shared, attempt: nat, spent: nat, kind: Kind, next: Shared, pc: RunPc)
    requires sh.keys.record.Some?
  {
    var last := attempt >= Current(sh).maxAttempts;
    match kind
    case Completes => pc == Ended(Returned) && Settled(next, attempt, Completed, None)
    case Cancels => pc == Ended(Returned) && Settled(next, attempt, Cancelled, None)
    case TimesOut => pc == Ended(Returned) && Settled(next, attempt, Failed, Some(JobTimeout))
    case Discards => pc == Ended(Returned) && Settled(next, Current(sh).attempt, Cancelled, None)
    case Fails =>
      if last then pc == Ended(Returned) && Settled(next, attempt, Failed, Some(InternalError))
      else
        && pc == Ended(Retry) && OnlyRecord(sh, next) && RunningAt(next, attempt, Current(sh).maxAttempts)
        && next.now == sh.now + spent
  }

  /**
   One attempt, with no one else at work: its outcome is decided by the script and by whether
   the token is there when it starts; an attempt to be retried leaves the token in place.
   */
  lemma AttemptResult(env: Env, sh: Shared, attempt: nat, script: Script)
    requires OpenUntil(sh, sh.now + Elapsed(script.steps)) && FreshIds(sh, script.end)
    requires JobTtl(env.settings) > 0
    ensures var (next, p) := Attempt(env, sh, attempt, script);
            var credentials := HasCredentials(env, sh);
            p.Run? && AttemptLeaves(sh, attempt, Spent(script, credentials), KindOf(script, credentials), next, p.pc)
  {
    hide Play, CredentialBeats, StepBeats, EndBeats, Settled;
    var start := Run(attempt, 0, Fetch);
    var credentials, steps, end := CredentialBeats(script), StepBeats(script.steps), EndBeats(script);
    var (s1, p1) := Drive(env, sh, start, OPENING);
    OpeningPhase(env, sh, attempt);
    DriveConcat(env, sh, start, OPENING, credentials + (steps + end));
    var rec := Current(s1);
    var (s2, p2) := Drive(env, s1, p1, credentials);
    CredentialPhase(env, s1, attempt, rec, script);
    DriveConcat(env, s1, p1, credentials, steps + end);
    if p2.pc.Ended? {
      DriveEnded(env, s2, p2, steps + end);
    } else {
      RestOfAttempt(env, s2, attempt, rec, script);
    }
  }

  /** A job that is gone or over is not run. */
  lemma NothingToRun(env: Env, sh: Shared, attempt: nat, script: Script)
    requires var r := Live(sh.keys.record, sh.now); r.None? || Terminal(r.value.status)
    ensures Attempt(env, sh, attempt, script) == (sh, Run(attempt, 0, Ended(Returned)))
  {
    hide Play, CredentialBeats, StepBeats, EndBeats;
    var rest := CredentialBeats(script) + (StepBeats(script.steps) + EndBeats(script));
    var start := Run(attempt, 0, Fetch);
    assert Beats(script) == [Plain(Go)] + ([Plain(Go), Plain(Go)] + rest);
    DriveConcat(env, sh, start, [Plain(Go)], [Plain(Go), Plain(Go)] + rest);
    DriveOne(env, sh, start, Plain(Go));
    assert Play(env, sh, start, Plain(Go)) == (sh, Run(attempt, 0, Ended(Returned))) by { FetchEnds(env, sh, attempt); }
    DriveEnded(env, sh, Run(attempt, 0, Ended(Returned)), [Plain(Go), Plain(Go)] + rest);
  }

  lemma FetchEnds(env: Env, sh: Shared, attempt: nat)
    requires var r := Live(sh.keys.record, sh.now); r.None? || Terminal(r.value.status)
    ensures Play(env, sh, Run(attempt, 0, Fetch), Plain(Go)) == (sh, Run(attempt, 0, Ended(Returned)))
  {
  }

  /** A flagged open job is discarded at pickup. */
  lemma FlaggedIsDiscarded(env: Env, sh: Shared, attempt: nat, script: Script)
    requires sh.keys.record.Some? && sh.now < sh.keys.record.value.expiry && CancelRequested(sh.keys, sh.now)
    requires !Terminal(Current(sh).status) && Current(sh).error.None?
    ensures var (next, p) := Attempt(env, sh, attempt, script);
            p == Run(attempt, 0, Ended(Returned)) && Settled(next, Current(sh).attempt, Cancelled, None)
  {
    hide CredentialBeats, StepBeats, EndBeats;
    var rest := CredentialBeats(script) + (StepBeats(script.steps) + EndBeats(script));
    var start := Run(attempt, 0, Fetch);
    DriveConcat(env, sh, start, OPENING, rest);
    DriveThree(env, sh, start, Plain(Go), Plain(Go), Plain(Go));
    var (next, p) := Drive(env, sh, start, OPENING);
    DriveEnded(env, next, p, rest);
  }

  lemma RestOfAttempt(env: Env, sh: Shared, attempt: nat, rec: JobRecord, script: Script)
    requires OpenUntil(sh, sh.now + Elapsed(script.steps)) && RunningAt(sh, attempt, rec.maxAttempts)
    requires FreshIds(sh, script.end) && JobTtl(env.settings) > 0 && !script.credentialsFail
    ensures var (next, p) := Drive(env, sh, Run(attempt, 0, Stream(rec)), StepBeats(script.steps) + EndBeats(script));
            p.Run? && AttemptLeaves(sh, attempt, Elapsed(script.steps), KindOf(script, true), next, p.pc)
  {
    hide Play, StepBeats, Settled, MintBeats, CLOSING;
    var start := Run(attempt, 0, Stream(rec));
    var (s1, p1) := Drive(env, sh, start, StepBeats(script.steps));
    StreamPhase(env, sh, attempt, 0, rec, script.steps);
    DriveConcat(env, sh, start, StepBeats(script.steps), EndBeats(script));
    if UserCancels(script.steps) {
      DriveEnded(env, s1, p1, EndBeats(script));
    } else {
      match script.end
      case Answers(output, ids) =>
        if script.steps == [] {
          FailurePhase(env, s1, attempt, |script.steps|, rec, false);
        } else {
          ClosingPhase(env, s1, attempt, |script.steps|, rec, output, ids);
        }
      case Raises => FailurePhase(env, s1, attempt, |script.steps|, rec, false);
      case RunsOut => FailurePhase(env, s1, attempt, |script.steps|, rec, true);
    }
  }

  // ---- Redelivery ----

  function Pow2(n: nat): nat {
    if n == 0 then 1 else 2 * Pow2(n - 1)
  }

  /** How long the queue waits before it delivers a retried attempt again. */
  function Defer(attempt: nat): nat {
    if Pow2(attempt) < 30 then Pow2(attempt) else 30
  }

  /** One delivery: time in the queue, whether the user cancels meanwhile, then the attempt. */
  datatype Delivery = Delivery(queued: nat, cancelled: bool, script: Script)

  /** The state in which a delivery reaches the worker. */
  function Delivered(env: Env, sh: Shared, d: Delivery): Shared {
    var later := sh.(now := sh.now + d.queued);
    if d.cancelled then CancelCall(env, later) else later
  }

  /** Deliveries from attempt number `attempt` on, each only if the one before asked for it. */
  function Redeliver(env: Env, sh: Shared, attempt: nat, ds: seq<Delivery>): Shared
    decreases |ds|
  {
    if ds == [] then sh
    else
      var (next, p) := Attempt(env, Delivered(env, sh, ds[0]), attempt, ds[0].script);
      if p.Run? && p.pc == Ended(Retry)
      then Redeliver(env, next.(now := next.now + Defer(attempt)), attempt + 1, ds[1..])
      else next
  }

  /** The longest the deliveries can take. */
  function Duration(attempt: nat, ds: seq<Delivery>): nat
    decreases |ds|
  {
    if ds == [] then 0
    else ds[0].queued + Elapsed(ds[0].script.steps) + Defer(attempt) + Duration(attempt + 1, ds[1..])
  }

  function DeliveryKind(d: Delivery, credentials: bool): Kind {
    if d.cancelled then Discards else KindOf(d.script, credentials)
  }

  /** What each delivery comes to, given the staged token and when it starts. */
  function Kinds(env: Env, token: Option<Entry<string>>, now: int, attempt: nat, ds: seq<Delivery>): (r: seq<Kind>)
    ensures |r| == |ds|
    decreases |ds|
  {
    if ds == [] then []
    else
      var start := now + ds[0].queued;
      var credentials := CredentialsAt(env, token, start);
      [DeliveryKind(ds[0], credentials)]
      + Kinds(env, token, start + Spent(ds[0].script, credentials) + Defer(attempt), attempt + 1, ds[1..])
  }

  function KindsFrom(env: Env, sh: Shared, attempt: nat, ds: seq<Delivery>): (r: seq<Kind>)
    ensures |r| == |ds|
  {
    Kinds(env, sh.keys.token, sh.now, attempt, ds)
  }

  /** Position of the first attempt that is not an ordinary failure. */
  function FirstDecisive(kinds: seq<Kind>): (i: nat)
    ensures i <= |kinds| && (i < |kinds| ==> !kinds[i].Fails?) && forall k | 0 <= k < i :: kinds[k].Fails?
  {
    if kinds == [] || !kinds[0].Fails? then 0 else 1 + FirstDecisive(kinds[1..])
  }

  /** The attempt the record ends with: a discarded delivery does not count as one. */
  function VerdictAttempt(kinds: seq<Kind>, before: nat, attempt: nat): int {
    var i := FirstDecisive(kinds);
    if i == |kinds| then attempt + i - 1
    else if !kinds[i].Discards? then attempt + i
    else if i == 0 then before
    else attempt + i - 1
  }

  function VerdictStatus(kinds: seq<Kind>): JobStatus {
    var i := FirstDecisive(kinds);
    if i == |kinds| then Failed
    else
      match kinds[i]
      case Completes => Completed
      case Cancels => Cancelled
      case Discards => Cancelled
      case _ => Failed
  }

  function VerdictError(kinds: seq<Kind>): Option<ErrorCode> {
    var i := FirstDecisive(kinds);
    if i == |kinds| then Some(InternalError)
    else if kinds[i].TimesOut? then Some(JobTimeout)
    else None
  }

  /** Over, with the verdict of these kinds. */
  predicate SettledBy(sh: Shared, kinds: seq<Kind>, before: nat, attempt: nat) {
    var n := VerdictAttempt(kinds, before, attempt);
    n >= 0 && Settled(sh, n, VerdictStatus(kinds), VerdictError(kinds))
  }

  predicate DeliverableIds(sh: Shared, ds: seq<Delivery>) {
    forall i | 0 <= i < |ds| :: FreshIds(sh, ds[i].script.end)
  }

  /** An open, unflagged job whose record outlasts the whole redelivery, with fresh ids at hand. */
  predicate Deliverable(env: Env, sh: Shared, attempt: nat, ds: seq<Delivery>) {
    OpenUntil(sh, sh.now + Duration(attempt, ds)) && DeliverableIds(sh, ds) && JobTtl(env.settings) > 0
  }

  /** Every delivery, cancelled in the queue or not, is of its kind. */
  lemma DeliveryResult(env: Env, sh: Shared, attempt: nat, ds: seq<Delivery>)
    requires ds != [] && Deliverable(env, sh, attempt, ds)
    ensures var (next, p) := Attempt(env, Delivered(env, sh, ds[0]), attempt, ds[0].script);
            var kind := KindsFrom(env, sh, attempt, ds)[0];
            var started := sh.(now := sh.now + ds[0].queued);
            var spent := Spent(ds[0].script, HasCredentials(env, started));
            p.Run? && AttemptLeaves(started, attempt, spent, kind, next, p.pc)
  {
    hide Attempt, Settled, KindOf, FreshIds, Spent, CancelCall;
    var started := sh.(now := sh.now + ds[0].queued);
    if ds[0].cancelled {
      CancelledInQueue(env, started, attempt, ds[0].script);
    } else {
      FreshIdsKept(sh, started, ds);
      AttemptResult(env, started, attempt, ds[0].script);
    }
  }

  lemma CancelledInQueue(env: Env, sh: Shared, attempt: nat, script: Script)
    requires OpenUntil(sh, sh.now) && JobTtl(env.settings) > 0
    ensures var (next, p) := Attempt(env, CancelCall(env, sh), attempt, script);
            p == Run(attempt, 0, Ended(Returned)) && Settled(next, Current(sh).attempt, Cancelled, None)
  {
    hide Attempt;
    var flagged := CancelCall(env, sh);
    if Current(sh).status.Queued? {
      NothingToRun(env, flagged, attempt, script);
    } else {
      FlaggedIsDiscarded(env, flagged, attempt, script);
    }
  }

  /** What a redelivery can still count on after an attempt that asked for another. */
  lemma RetryKeeps(env: Env, sh: Shared, attempt: nat, ds: seq<Delivery>)
    requires ds != [] && Deliverable(env, sh, attempt, ds)
    ensures sh.keys.record.Some?
    ensures var (next, p) := Attempt(env, Delivered(env, sh, ds[0]), attempt, ds[0].script);
            var later := next.(now := next.now + Defer(attempt));
            p.Run? && (p.pc == Ended(Retry) ==>
              && Deliverable(env, later, attempt + 1, ds[1..])
              && attempt < Current(sh).maxAttempts && Current(later).maxAttempts == Current(sh).maxAttempts
              && Current(later).attempt == attempt
              && KindsFrom(env, sh, attempt, ds)[0].Fails?
              && KindsFrom(env, sh, attempt, ds)[1..] == KindsFrom(env, later, attempt + 1, ds[1..]))
  {
    hide Attempt, Settled, KindOf, FreshIds, Spent, DeliverableIds, Delivered, Defer, CredentialsAt;
    DeliveryResult(env, sh, attempt, ds);
    var (next, p) := Attempt(env, Delivered(env, sh, ds[0]), attempt, ds[0].script);
    if p.pc == Ended(Retry) {
      FreshIdsKept(sh, next.(now := next.now + Defer(attempt)), ds);
      DeliverableTail(next.(now := next.now + Defer(attempt)), ds);
      SpentAtMost(ds[0].script, HasCredentials(env, sh.(now := sh.now + ds[0].queued)));
    }
  }

  lemma DeliverableTail(sh: Shared, ds: seq<Delivery>)
    requires ds != [] && DeliverableIds(sh, ds)
    ensures DeliverableIds(sh, ds[1..])
  {
  }

  lemma SpentAtMost(script: Script, credentials: bool)
    ensures Spent(script, credentials) <= Elapsed(script.steps)
  {
  }

  /**
   Sequential redelivery has a closed form. Whatever the scripts, the job ends terminal: with
   the attempt number and verdict of the first attempt that is not an ordinary exception, or,
   when all are, failed with an internal error at the last attempt. Cancels may come in the
   queue or while the agent works, and the token may expire at any time.
   */
  lemma {:induction false} RedeliveryClosedForm(env: Env, sh: Shared, attempt: nat, ds: seq<Delivery>)
    requires ds != [] && Deliverable(env, sh, attempt, ds)
    requires attempt >= 1 && attempt + |ds| == Current(sh).maxAttempts + 1
    ensures SettledBy(Redeliver(env, sh, attempt, ds), KindsFrom(env, sh, attempt, ds), Current(sh).attempt, attempt)
    decreases |ds|
  {
    hide Attempt, Settled, KindsFrom, Deliverable, Delivered, Defer, VerdictStatus, VerdictError, VerdictAttempt;
    RetryKeeps(env, sh, attempt, ds);
    FirstOutcome(env, sh, attempt, ds);
    var (next, p) := Attempt(env, Delivered(env, sh, ds[0]), attempt, ds[0].script);
    if p.pc == Ended(Retry) {
      VerdictStep(KindsFrom(env, sh, attempt, ds), Current(sh).attempt, attempt);
      RedeliveryClosedForm(env, next.(now := next.now + Defer(attempt)), attempt + 1, ds[1..]);
    }
  }

  /** The verdict of a run of attempts whose first is an ordinary failure. */
  lemma VerdictStep(kinds: seq<Kind>, before: nat, attempt: nat)
    requires |kinds| > 1 && kinds[0].Fails?
    ensures VerdictStatus(kinds) == VerdictStatus(kinds[1..]) && VerdictError(kinds) == VerdictError(kinds[1..])
    ensures VerdictAttempt(kinds, before, attempt) == VerdictAttempt(kinds[1..], attempt, attempt + 1)
  {
  }

  /** The first attempt either settles the job or is an ordinary failure with attempts left. */
  lemma {:induction false} FirstOutcome(env: Env, sh: Shared, attempt: nat, ds: seq<Delivery>)
    requires ds != [] && Deliverable(env, sh, attempt, ds)
    requires attempt >= 1 && attempt + |ds| == Current(sh).maxAttempts + 1
    ensures var kinds := KindsFrom(env, sh, attempt, ds);
            var (next, p) := Attempt(env, Delivered(env, sh, ds[0]), attempt, ds[0].script);
            p.Run? && if kinds[0].Fails? && |ds| > 1 then p.pc == Ended(Retry)
            else p.pc == Ended(Returned) && SettledBy(next, kinds, Current(sh).attempt, attempt)
  {
    hide Attempt, Settled, KindsFrom, DeliverableIds, Delivered, Defer, Spent, HasCredentials, OpenUntil;
    DeliveryResult(env, sh, attempt, ds);
  }

  lemma FreshIdsKept(a: Shared, b: Shared, ds: seq<Delivery>)
    requires a.proposals == b.proposals && a.log == b.log
    ensures DeliverableIds(a, ds) ==> DeliverableIds(b, ds)
  {
    forall i | 0 <= i < |ds| && FreshIds(a, ds[i].script.end) ensures FreshIds(b, ds[i].script.end) {
      if ds[i].script.end.Answers? {
        assert forall k | 0 <= k < |ds[i].script.end.ids| :: Fresh(a, ds[i].script.end.ids[k]);
      }
    }
  }
}
