/** What holds of stored proposals and execute requests in every run. */
module ActionTheorems {
  import opened Wrappers
  import opened Json
  import opened Schemas
  import opened JobKeys
  import opened RedisStore
  import Hash = RequestHash
  import opened ResearchApi
  import opened ActionProtocol
  import opened ActionInvariants
  import JobProtocol
  import JobInvariants
  import JobTheorems

  /** `w` is the world after some run from an empty store. */
  ghost predicate Reachable(env: Env, w: World) {
    exists now, ops :: w == Run(env, Empty(now), ops)
  }

  lemma ReachableInv(env: Env, w: World)
    requires Reachable(env, w)
    ensures Inv(env, w)
  {
    var now, ops :| w == Run(env, Empty(now), ops);
    RunKeeps(env, Empty(now), ops);
  }

  // ---- What reaches the adapter ----

  /**
   Every call of the mutation in every run was for a proposal of the worker's, before its
   expiry, with a payload that is valid and differs from the proposed one on editable fields only.
   */
  lemma OnlyVettedCalls(env: Env, w: World, i: nat)
    requires Reachable(env, w) && i < |w.log| && w.log[i].Called?
    ensures Vetted(env, w, w.log[i])
    ensures w.log[i].action.editableFields == env.adapter.editableFields(w.log[i].action.actionType)
  {
    ReachableInv(env, w);
    assert EventInv(env, w, w.log[i]);
  }

  /** How a step extends the log: by nothing, by a rejection, or by a vetted call and perhaps its record. */
  lemma Growth(env: Env, w: World, op: Op)
    requires Inv(env, w)
    ensures var t := Act(env, w, op);
            || t.log == w.log
            || (op.Reject? && op.id in w.proposals && t.log == w.log + [Rejected(op.id)] && op.id !in t.proposals)
            || (op.Execute? && ClearedCall(env, w, op) && CallLog(w, t, op)
                && (op.d.exec.Done? && !op.halt.Midway? && !op.halt.Late? ==> op.q.actionId !in t.proposals))
  {
    hide Perform, ClearedCall, CallLog, Inv, FromWorker;
    if op.Execute? {
      ExecuteGrowth(env, w, op);
    }
  }

  lemma ExecuteGrowth(env: Env, w: World, op: Op)
    requires Inv(env, w) && op.Execute?
    ensures var t := Act(env, w, op);
            t.log == w.log
            || (ClearedCall(env, w, op) && CallLog(w, t, op)
                && (op.d.exec.Done? && !op.halt.Midway? && !op.halt.Late? ==> op.q.actionId !in t.proposals))
  {
    hide Judge, Inv, Response, Hash.HashInput;
    if ClearedCall(env, w, op) {
      ClearedId(env, w, op);
    }
  }

  lemma ClearedId(env: Env, w: World, op: Op)
    requires Inv(env, w) && op.Execute? && ClearedCall(env, w, op)
    ensures var v := Judge(env, w.idem, w.proposals, w.now, w.now + op.waited, op.q);
            v.stored.action.actionId == op.q.actionId && op.q.actionId in w.saved && op.q.actionId in w.proposals
  {
    hide Judge, UnexpectedFields;
    ClearedFacts(env, w, op.waited, op.q);
  }

  predicate ClearedCall(env: Env, w: World, op: Op)
    requires op.Execute?
  {
    !op.halt.Early? && Judge(env, w.idem, w.proposals, w.now, w.now + op.waited, op.q).Cleared?
  }

  predicate CallLog(w: World, t: World, op: Op)
    requires op.Execute?
  {
    && |w.log| < |t.log| <= |w.log| + 2 && w.log == t.log[..|w.log|]
    && (var e := t.log[|w.log|];
        e.Called? && e.key == op.q.key && e.action.actionId == op.q.actionId && e.done == op.d.exec.Done?)
    && (|t.log| == |w.log| + 2 ==> t.log[|w.log| + 1].Recorded?)
  }

  // ---- A recorded outcome is never executed again under its key ----

  predicate SameUse(recorded: Event, call: Event) {
    recorded.Recorded? && call.Called? && recorded.usedKey == call.key && recorded.actionId == call.action.actionId
  }

  predicate OnceRecorded(log: seq<Event>) {
    forall i, j | 0 <= i < j < |log| :: !SameUse(log[i], log[j])
  }

  lemma NoEarlierRecord(env: Env, w: World, op: Op, i: nat)
    requires Inv(env, w) && env.settings.proposalTtl <= env.settings.idempotencyTtl
    requires op.Execute? && ClearedCall(env, w, op)
    requires i < |w.log| && w.log[i].Recorded?
    ensures w.log[i].usedKey != op.q.key || w.log[i].actionId != op.q.actionId
  {
    hide Judge, UnexpectedFields, Hash.HashInput, FromWorker;
    ClearedFacts(env, w, op.waited, op.q);
    assert EventInv(env, w, w.log[i]);
  }

  lemma OnceRecordedKept(env: Env, w: World, op: Op)
    requires Inv(env, w) && env.settings.proposalTtl <= env.settings.idempotencyTtl && OnceRecorded(w.log)
    ensures OnceRecorded(Act(env, w, op).log)
  {
    hide Inv, Act, ClearedCall;
    var t := Act(env, w, op);
    Growth(env, w, op);
    if op.Execute? && t.log != w.log {
      forall i, j | 0 <= i < j < |t.log| ensures !SameUse(t.log[i], t.log[j]) {
        if i < |w.log| {
          assert t.log[i] == w.log[i];
          if j < |w.log| {
            assert t.log[j] == w.log[j];
          } else if w.log[i].Recorded? {
            NoEarlierRecord(env, w, op, i);
          }
        }
      }
    }
  }

  lemma {:induction false} OnceRecordedRun(env: Env, w: World, ops: seq<Op>)
    requires Inv(env, w) && env.settings.proposalTtl <= env.settings.idempotencyTtl && OnceRecorded(w.log)
    ensures OnceRecorded(Run(env, w, ops).log)
    decreases |ops|
  {
    hide Inv, Act, OnceRecorded, Later;
    if ops != [] {
      ActKeeps(env, w, ops[0]);
      OnceRecordedKept(env, w, ops[0]);
      OnceRecordedRun(env, Act(env, w, ops[0]), ops[1..]);
    }
  }

  // ---- A sample proposal that can be executed again and again ----

  const ACCEPTING: Adapter := Adapter(false, (actionType, payload) => Valid, actionType => {})

  function SampleProposal(s: Settings): StoredProposal {
    StoredProposal(ProposedAction("a", "t", map[], map[], "", map[], s.proposalTtl, {}, "x"), "j", "s", "c", None)
  }

  function SampleRequest(key: string): ExecuteRequest {
    ExecuteRequest("a", map[], key, Caller("c", ""), Trace(None, "x"))
  }

  function SampleExecute(key: string, halt: Halt): Op {
    Execute(SampleRequest(key), 0, Downstream(Fine, Done(map[], None), 0), halt)
  }

  lemma Extend(env: Env, w: World, op: Op)
    requires Reachable(env, w)
    ensures Reachable(env, Act(env, w, op))
  {
    hide Act;
    var now, ops :| w == Run(env, Empty(now), ops);
    RunSnoc(env, Empty(now), ops, op);
  }

  lemma {:induction false} RunSnoc(env: Env, w: World, ops: seq<Op>, op: Op)
    ensures Run(env, w, ops + [op]) == Act(env, Run(env, w, ops), op)
    decreases |ops|
  {
    hide Act;
    if ops == [] {
      assert [op][1..] == [];
    } else {
      assert (ops + [op])[1..] == ops[1..] + [op];
      RunSnoc(env, Act(env, w, ops[0]), ops[1..], op);
    }
  }

  /** The sample proposal, stored at time 0. */
  lemma SampleStart(env: Env) returns (w: World)
    requires env.adapter == ACCEPTING
    ensures Reachable(env, w) && w.now == 0 && w.idem == map[] && w.log == []
    ensures w == Act(env, Empty(0), Save(SampleProposal(env.settings)))
    ensures w.proposals == w.saved == map["a" := Entry(SampleProposal(env.settings), env.settings.proposalTtl)]
  {
    assert Run(env, Empty(0), []) == Empty(0);
    Extend(env, Empty(0), Save(SampleProposal(env.settings)));
    w := Act(env, Empty(0), Save(SampleProposal(env.settings)));
  }

  /** Executing it under a key without a live record reaches the adapter; a crash leaves it in place. */
  lemma SampleCall(env: Env, w: World, key: string, halt: Halt) returns (t: World)
    requires env.adapter == ACCEPTING && Reachable(env, w) && !halt.Early?
    requires "a" in w.proposals && w.proposals["a"] == Entry(SampleProposal(env.settings), env.settings.proposalTtl)
    requires 0 <= w.now < env.settings.proposalTtl && (key in w.idem ==> w.idem[key].expiry <= w.now)
    ensures t == Act(env, w, SampleExecute(key, halt))
    ensures Reachable(env, t) && t.now == w.now && w.log < t.log && t.saved == w.saved
    ensures t.log[|w.log|] == Called(key, SampleProposal(env.settings).action, map[], w.now, true)
    ensures halt.Midway? ==> t.proposals == w.proposals && t.idem == w.idem
    ensures halt.Late? ==> t.proposals == w.proposals
    ensures !halt.Midway? ==>
      && |t.log| == |w.log| + 2 && t.log[|w.log| + 1].Recorded?
      && (var e := t.log[|w.log| + 1];
          && e.usedKey == key && e.actionId == "a" && e.payload == map[]
          && e.expiry == w.now + env.settings.idempotencyTtl
          && t.idem == w.idem[key := Entry(e.record, e.expiry)])
  {
    hide Reachable, Hash.HashInput;
    var op := SampleExecute(key, halt);
    var p, q := SampleProposal(env.settings), op.q;
    assert UnexpectedFields(p.action, q.approved) == {};
    assert AuthorizedProposal(env, Lookup(w.proposals, "a"), w.now, q.caller) == Some(p);
    assert Judge(env, w.idem, w.proposals, w.now, w.now, q) == Cleared(p);
    Extend(env, w, op);
    t := Act(env, w, op);
  }

  lemma Repeats(log: seq<Event>, i: nat, j: nat)
    requires i < j < |log| && SameUse(log[i], log[j])
    ensures !OnceRecorded(log)
  {
  }

  /** A record that expires before its proposal, and a crash between the two writes. */
  lemma RepeatedCall(s: Settings) returns (env: Env, w: World)
    requires s.proposalTtl > s.idempotencyTtl
    ensures env.settings == s && Reachable(env, w) && !OnceRecorded(w.log)
  {
    hide Reachable, Perform, OnceRecorded;
    env := Env(s, ACCEPTING);
    var w0 := SampleStart(env);
    var w1 := SampleCall(env, w0, "k", Late);
    Extend(env, w1, Tick(s.idempotencyTtl));
    var w2 := Act(env, w1, Tick(s.idempotencyTtl));
    w := SampleCall(env, w2, "k", Never);
    assert w.log[1] == w1.log[1] && SameUse(w.log[1], w.log[2]);
    Repeats(w.log, 1, 2);
  }

  /** In no run, under no adapter, is the mutation called again for a key and action with a recorded outcome. */
  ghost predicate NeverRepeats(s: Settings) {
    forall env: Env, w: World | env.settings == s && Reachable(env, w) :: OnceRecorded(w.log)
  }

  /**
   With crashes anywhere and records expiring, a recorded outcome is never executed again
   under its key, exactly when proposals are not kept longer than idempotency records.
   */
  lemma RecordedOutcomeHolds(s: Settings)
    ensures NeverRepeats(s) <==> s.proposalTtl <= s.idempotencyTtl
  {
    if s.proposalTtl <= s.idempotencyTtl {
      forall env: Env, w: World | env.settings == s && Reachable(env, w) ensures OnceRecorded(w.log) {
        var now, ops :| w == Run(env, Empty(now), ops);
        OnceRecordedRun(env, Empty(now), ops);
      }
    } else {
      var env, w := RepeatedCall(s);
      assert !OnceRecorded(w.log);
    }
  }

  /**
   While a record is live, its key answers exactly the recorded request, with the recorded
   outcome, and nothing is done downstream; any other request under the key is refused.
   */
  lemma RecordReplays(env: Env, w: World, i: nat, q: ExecuteRequest, waited: nat, d: Downstream)
    requires Reachable(env, w) && i < |w.log| && w.log[i].Recorded?
    requires w.log[i].usedKey == q.key && w.now < w.log[i].expiry
    ensures var e := w.log[i];
            Perform(env, w, q, waited, d, Never)
            == (w.(now := w.now + waited),
                Some(if q.actionId == e.actionId && q.approved == e.payload
                     then Ok(e.record.response.(idempotentReplay := true, correlationId := CorrelationOf(q.trace)))
                     else Err(IdempotentReplay)))
  {
    hide Reachable, Hash.HashInput, CallAdapter, UnexpectedFields;
    ReachableInv(env, w);
    var e := w.log[i];
    assert EventInv(env, w, e);
    if Hash.HashInput(q.actionId, q.approved) == Hash.HashInput(e.actionId, e.payload) {
      Hash.HashInputInjective(q.actionId, q.approved, e.actionId, e.payload);
    }
  }

  // ---- Callers who do not own the proposal ----

  predicate OwnsStored(env: Env, proposals: map<string, Entry<StoredProposal>>, actionId: string, caller: Caller) {
    var e := Lookup(proposals, actionId);
    e.Some? && Owns(env.adapter, caller, e.value.value.consumerId, e.value.value.principalHash)
  }

  /**
   A caller who does not own the proposal is told that it has expired, as if there were none,
   exactly when the key has no live record: a replay is answered before ownership is asked.
   */
  lemma StrangerToldExpired(env: Env, w: World, q: ExecuteRequest, waited: nat)
    requires !OwnsStored(env, w.proposals, q.actionId, q.caller)
    ensures Judge(env, w.idem, w.proposals, w.now, w.now + waited, q) == Decline(ActionExpired)
       <==> Live(Lookup(w.idem, q.key), w.now).None?
  {
    hide UnexpectedFields, Hash.HashInput;
  }

  /** Whatever it is told, such a caller's request does nothing. */
  lemma StrangerDoesNothing(env: Env, w: World, q: ExecuteRequest, waited: nat, d: Downstream, halt: Halt)
    requires !OwnsStored(env, w.proposals, q.actionId, q.caller)
    ensures Perform(env, w, q, waited, d, halt).0 == w.(now := w.now + waited)
  {
    hide UnexpectedFields, Hash.HashInput, CallAdapter;
  }

  /** A run in which another consumer, with the key and the approved request, is served the owner's outcome. */
  lemma StrangerServed(s: Settings) returns (env: Env, w: World, q: ExecuteRequest)
    requires s.proposalTtl > 0 && s.idempotencyTtl > 0
    ensures env.settings == s && Reachable(env, w) && q.actionId in w.saved
    ensures !Owns(env.adapter, q.caller, w.saved[q.actionId].value.consumerId, w.saved[q.actionId].value.principalHash)
    ensures forall d: Downstream ::
              var reply := Perform(env, w, q, 0, d, Never).1;
              reply.Some? && reply.value.Ok? && reply.value.value.idempotentReplay
  {
    hide Reachable, Hash.HashInput, Judge;
    env := Env(s, ACCEPTING);
    var w0 := SampleStart(env);
    w := SampleCall(env, w0, "k", Never);
    q := SampleRequest("k").(caller := Caller("d", ""));
    ReachableInv(env, w);
    forall d: Downstream
      ensures var reply := Perform(env, w, q, 0, d, Never).1;
              reply.Some? && reply.value.Ok? && reply.value.value.idempotentReplay
    {
      RecordReplays(env, w, 1, q, 0, d);
    }
  }

  // ---- One end for every proposal ----

  /** No handler for `id` crashes between the mutation and the end of the request. */
  predicate Uncrashed(ops: seq<Op>, id: string) {
    forall i | 0 <= i < |ops| && ops[i].Execute? && ops[i].q.actionId == id ::
      !ops[i].halt.Midway? && !ops[i].halt.Late?
  }

  /** Of all successful executions and rejections of a proposal there is at most one. */
  predicate EndsOnce(log: seq<Event>, id: string) {
    forall i, j | 0 <= i < j < |log| :: !(Ends(log[i], id) && Ends(log[j], id))
  }

  predicate GoneWhenEnded(w: World, id: string) {
    forall i | 0 <= i < |w.log| && Ends(w.log[i], id) :: id in w.saved && id !in w.proposals
  }

  lemma EndsOnceKept(env: Env, w: World, op: Op, id: string)
    requires Inv(env, w) && EndsOnce(w.log, id) && GoneWhenEnded(w, id) && Uncrashed([op], id)
    ensures EndsOnce(Act(env, w, op).log, id) && GoneWhenEnded(Act(env, w, op), id)
  {
    hide Inv, Act, UnexpectedFields, Judge, FromWorker, EventInv;
    var t := Act(env, w, op);
    assert [op][0] == op;
    Growth(env, w, op);
    ActKeeps(env, w, op);
    if op.Execute? && t.log != w.log { ClearedId(env, w, op); }
    if op.Reject? && t.log != w.log { InvParts(env, w); }
    forall i | 0 <= i < |t.log| && Ends(t.log[i], id) ensures id in t.saved && id !in t.proposals {
      if i < |w.log| { assert t.log[i] == w.log[i]; }
    }
    forall i, j | 0 <= i < j < |t.log| ensures !(Ends(t.log[i], id) && Ends(t.log[j], id)) {
      if i < |w.log| { assert t.log[i] == w.log[i]; }
      if j < |w.log| { assert t.log[j] == w.log[j]; }
    }
  }

  lemma {:induction false} EndsOnceRun(env: Env, w: World, ops: seq<Op>, id: string)
    requires Inv(env, w) && EndsOnce(w.log, id) && GoneWhenEnded(w, id) && Uncrashed(ops, id)
    ensures EndsOnce(Run(env, w, ops).log, id) && GoneWhenEnded(Run(env, w, ops), id)
    decreases |ops|
  {
    hide Inv, Act, EndsOnce, GoneWhenEnded, Later;
    if ops != [] {
      assert Uncrashed([ops[0]], id) && Uncrashed(ops[1..], id);
      ActKeeps(env, w, ops[0]);
      EndsOnceKept(env, w, ops[0], id);
      EndsOnceRun(env, Act(env, w, ops[0]), ops[1..], id);
    }
  }

  /** Crashes of either kind let two keys execute one proposal. */
  lemma DoubleExecution(halt: Halt) returns (env: Env, ops: seq<Op>)
    requires halt.Midway? || halt.Late?
    ensures HaltsWithin(ops, {halt}) && !EndsOnce(Run(env, Empty(0), ops).log, "a")
  {
    hide Act, SampleExecute;
    env := Env(Settings(120, 10, 10, 10, 1), ACCEPTING);
    var save, first, second := Save(SampleProposal(env.settings)), SampleExecute("k", halt), SampleExecute("l", halt);
    var w0 := SampleStart(env);
    var w1 := SampleCall(env, w0, "k", halt);
    var w2 := SampleCall(env, w1, "l", halt);
    ops := [save] + [first] + [second];
    assert Run(env, Empty(0), [save]) == w0 by {
      RunSnoc(env, Empty(0), [], save);
      assert [] + [save] == [save];
    }
    RunSnoc(env, Empty(0), [save], first);
    RunSnoc(env, Empty(0), [save] + [first], second);
    assert w2.log[0] == w1.log[0];
    assert Ends(w2.log[0], "a") && Ends(w2.log[|w1.log|], "a");
    SampleHalts(halt);
  }

  lemma SampleHalts(halt: Halt)
    ensures HaltsWithin([Save(SampleProposal(Settings(120, 10, 10, 10, 1)))]
                        + [SampleExecute("k", halt)] + [SampleExecute("l", halt)], {halt})
  {
  }

  predicate HaltsWithin(ops: seq<Op>, halts: set<Halt>) {
    forall i | 0 <= i < |ops| && ops[i].Execute? :: ops[i].halt in halts
  }

  /** With crashes at these points only, no proposal is ever executed twice, or executed and rejected. */
  ghost predicate NeverTwice(halts: set<Halt>) {
    forall env: Env, now: int, ops: seq<Op>, id: string | HaltsWithin(ops, halts) ::
      EndsOnce(Run(env, Empty(now), ops).log, id)
  }

  /**
   Every proposal is executed or rejected at most once in every run exactly when the handler
   never crashes between the mutation and consuming the proposal. Recording the outcome first
   does not help: another key executes the proposal again.
   */
  lemma AtMostOneEnd(halts: set<Halt>)
    ensures NeverTwice(halts) <==> Midway !in halts && Late !in halts
  {
    if Midway !in halts && Late !in halts {
      forall env: Env, now: int, ops: seq<Op>, id: string | HaltsWithin(ops, halts)
        ensures EndsOnce(Run(env, Empty(now), ops).log, id)
      {
        EndsOnceRun(env, Empty(now), ops, id);
      }
    } else {
      var halt := if Midway in halts then Midway else Late;
      var env, ops := DoubleExecution(halt);
      assert HaltsWithin(ops, halts);
      assert !EndsOnce(Run(env, Empty(0), ops).log, "a");
    }
  }

  predicate Executed(log: seq<Event>, id: string) {
    exists i :: 0 <= i < |log| && Ends(log[i], id) && log[i].Called?
  }

  predicate WasRejected(log: seq<Event>, id: string) {
    exists i :: 0 <= i < |log| && Ends(log[i], id) && log[i].Rejected?
  }

  /** Stored, unexpired, and so still open to execution. */
  predicate Pending(w: World, id: string) {
    var p := Live(Lookup(w.proposals, id), w.now); p.Some? && w.now < p.value.action.expiresAt
  }

  predicate Lapsed(w: World, id: string)
    requires id in w.saved
  {
    !Executed(w.log, id) && !WasRejected(w.log, id) && w.saved[id].value.action.expiresAt <= w.now
  }

  function Count(b: bool): nat {
    if b then 1 else 0
  }

  predicate OneFate(w: World, id: string)
    requires id in w.saved
  {
    Count(Pending(w, id)) + Count(Executed(w.log, id)) + Count(WasRejected(w.log, id)) + Count(Lapsed(w, id)) == 1
  }

  /** Without a crash after the mutation a stored proposal is always in exactly one of its four states. */
  lemma ExactlyOneFate(env: Env, now: int, ops: seq<Op>, id: string)
    requires Uncrashed(ops, id) && id in Run(env, Empty(now), ops).saved
    ensures var w := Run(env, Empty(now), ops);
            OneFate(w, id)
  {
    hide Run, Uncrashed;
    var w := Run(env, Empty(now), ops);
    NothingYet(env, now);
    EndsOnceRun(env, Empty(now), ops, id);
    RunKeeps(env, Empty(now), ops);
    FateOf(env, w, id);
  }

  lemma NothingYet(env: Env, now: int)
    ensures Inv(env, Empty(now))
  {
  }

  lemma FateOf(env: Env, w: World, id: string)
    requires Inv(env, w) && EndsOnce(w.log, id) && GoneWhenEnded(w, id) && id in w.saved
    ensures OneFate(w, id)
  {
    hide EventInv;
    assert FromWorker(env, w.saved[id].expiry - env.settings.proposalTtl, w.saved[id].value);
    if id !in w.proposals && exists i :: 0 <= i < |w.log| && Ends(w.log[i], id) {
      var i :| 0 <= i < |w.log| && Ends(w.log[i], id);
      assert if w.log[i].Called? then Executed(w.log, id) else WasRejected(w.log, id);
    }
  }

  // ---- The worker and the API together ----

  /** Only staging a candidate touches the proposals. */
  lemma OnlyPersistSaves(env: Env, sh: JobProtocol.Shared, p: JobProtocol.Proc, c: JobProtocol.Choice)
    requires !(p.Run? && p.pc.Persist?)
    ensures JobProtocol.StepProc(env, sh, p, c).0.proposals == sh.proposals
  {
    hide Transition, AfterTransition, SetProgress, RequestCancel, StageToken, CreateJob;
  }

  lemma PersistSaves(env: Env, sh: JobProtocol.Shared, pc: JobProtocol.RunPc, c: JobProtocol.Choice)
    requires pc.Persist? && JobInvariants.RunInv(env, sh, pc)
    ensures var next := JobProtocol.StepPersist(env, sh, pc, c).0;
            next.proposals == sh.proposals || exists p: StoredProposal :: SavedFresh(env, sh, next, p)
  {
    hide JobInvariants.CarriesAll, JobInvariants.AllOffered, FromWorker;
    var (next, after) := JobProtocol.StepPersist(env, sh, pc, c);
    if next.proposals != sh.proposals {
      var a := JobProtocol.MakeAction(env, pc.rec, pc.output.proposedActions[pc.next], c.id,
                                      pc.acceptedAt + env.settings.proposalTtl);
      AdmissibleAction(env, sh.now, JobProtocol.MakeStored(pc.rec, a));
      assert SavedFresh(env, sh, next, JobProtocol.MakeStored(pc.rec, a));
    }
  }

  lemma AdmissibleAction(env: Env, now: int, p: StoredProposal)
    requires p.action.editableFields == env.adapter.editableFields(p.action.actionType)
    requires env.adapter.validate(p.action.actionType, p.action.payload).Valid?
    requires p.action.expiresAt <= now + env.settings.proposalTtl
    ensures FromWorker(env, now, p)
  {
  }

  /** `b` has one more proposal than `a`: admissible, and under an id that was free. */
  predicate SavedFresh(env: Env, a: JobProtocol.Shared, b: JobProtocol.Shared, p: StoredProposal) {
    && FromWorker(env, a.now, p) && p.action.actionId !in a.proposals
    && b.proposals == a.proposals[p.action.actionId := Entry(p, a.now + env.settings.proposalTtl)]
  }

  /** Each step of a job's machine either leaves the proposals alone or saves one that `FromWorker` admits. */
  lemma WorkerSaves(env: Env, s: JobProtocol.Job, pid: nat, c: JobProtocol.Choice)
    requires JobTheorems.Reachable(env, s) && pid in s.procs
    ensures var t := JobProtocol.Act(env, s, JobProtocol.Advance(pid, c));
            t.sh.proposals == s.sh.proposals || exists p: StoredProposal :: SavedFresh(env, s.sh, t.sh, p)
  {
    hide JobTheorems.ReachableBy, JobInvariants.SharedInv, SavedFresh, JobInvariants.RunInv, JobProtocol.StepPersist;
    JobTheorems.ReachableInv(env, s);
    var proc := s.procs[pid];
    assert JobInvariants.ProcInv(env, s.sh, proc);
    if proc.Run? && proc.pc.Persist? {
      PersistSaves(env, s.sh, proc.pc, c);
    } else {
      OnlyPersistSaves(env, s.sh, proc, c);
    }
  }

  lemma NothingUnexpected(action: ProposedAction)
    ensures UnexpectedFields(action, action.payload) == {}
  {
    forall key | key in action.payload.Keys ensures PyEq(Get(action.payload, key), Get(action.payload, key)) {
      PyEqReflexive(action.payload[key]);
    }
  }

  /**
   A proposal the worker stored, in any run of its job, not yet consumed or rejected: sent
   unedited by the job's submitter under a fresh key, less than a proposal lifetime after the
   agent's answer was accepted, it passes every check of the execute handler.
   */
  lemma WorkerProposalsCleared(env: Env, s: JobProtocol.Job, idem: map<string, Entry<IdempotencyRecord>>,
                               q: ExecuteRequest, waited: nat)
    requires JobTheorems.Reachable(env, s)
    requires q.actionId in s.sh.log.stored && q.actionId in s.sh.proposals
    requires q.approved == s.sh.log.stored[q.actionId].action.payload
    requires Owns(env.adapter, q.caller, s.sh.log.submitted.consumerId, s.sh.log.submitted.principalHash)
    requires Live(Lookup(idem, q.key), s.sh.now).None?
    requires q.actionId in s.sh.log.answered
    requires s.sh.now + waited < s.sh.log.answered[q.actionId] + env.settings.proposalTtl
    ensures Judge(env, idem, s.sh.proposals, s.sh.now, s.sh.now + waited, q) == Cleared(s.sh.log.stored[q.actionId])
  {
    hide JobTheorems.Reachable, UnexpectedFields, Hash.HashInput;
    JobTheorems.ProposalLifetime(env, s, q.actionId);
    NothingUnexpected(s.sh.log.stored[q.actionId].action);
  }

  /** So all that can fail it is the target system. */
  lemma WorkerProposalsExecute(env: Env, s: JobProtocol.Job, w: World, q: ExecuteRequest, waited: nat, d: Downstream)
    requires JobTheorems.Reachable(env, s) && w.proposals == s.sh.proposals && w.now == s.sh.now
    requires q.actionId in s.sh.log.stored && q.actionId in s.sh.proposals
    requires q.approved == s.sh.log.stored[q.actionId].action.payload
    requires Owns(env.adapter, q.caller, s.sh.log.submitted.consumerId, s.sh.log.submitted.principalHash)
    requires Live(Lookup(w.idem, q.key), w.now).None?
    requires q.actionId in s.sh.log.answered
    requires w.now + waited < s.sh.log.answered[q.actionId] + env.settings.proposalTtl
    ensures var reply := Perform(env, w, q, waited, d, Never).1;
            && reply.Some?
            && (d.check.Fine? && d.exec.Done? ==> reply.value.Ok? && reply.value.value.result == d.exec.result)
            && (reply.value.Err? ==>
                  reply.value.error == (match d.check
                                        case CheckFailed => DownstreamError
                                        case Drifted => StaleTarget
                                        case Fine => if d.exec.NotSupported? then UnsupportedAction
                                                     else if d.exec.BadPayload? then InternalError
                                                     else DownstreamError))
  {
    hide JobTheorems.Reachable, Judge, Hash.HashInput;
    WorkerProposalsCleared(env, s, w.idem, q, waited);
  }

  /**
   The owner of a completed job is shown the result that was saved last, in any run, exactly
   for one result lifetime after it was saved.
   */
  lemma PollShowsLastResult(env: Env, s: JobProtocol.Job, caller: Caller)
    requires JobTheorems.Reachable(env, s) && PollResult(env, s.sh.keys, s.sh.now, caller).Ok?
    ensures var (shown, saved) := (PollResult(env, s.sh.keys, s.sh.now, caller).value, s.sh.log.results);
            if shown.status.Completed? && s.sh.now < (if saved == [] then s.sh.now else
                                                      saved[|saved| - 1].savedAt + env.settings.resultTtl) then
              && shown.findings == Some(saved[|saved| - 1].doc.findings)
              && shown.proposedActions == Some(saved[|saved| - 1].doc.proposedActions)
            else shown.findings == None && shown.proposedActions == None
    ensures PollResult(env, s.sh.keys, s.sh.now, caller).value.status.Completed? ==> s.sh.log.results != []
  {
    hide JobTheorems.ReachableBy, JobInvariants.ProposalsInv, JobInvariants.TokenInv, JobInvariants.CancelInv,
      JobInvariants.ProcInv;
    JobTheorems.ReachableInv(env, s);
  }

  /** Every action a poll shows was stored as a proposal of the polled job, valid and under its owner. */
  lemma PolledActionsWereStored(env: Env, s: JobProtocol.Job, caller: Caller)
    requires JobTheorems.Reachable(env, s)
    ensures var r := PollResult(env, s.sh.keys, s.sh.now, caller);
            r.Ok? && r.value.proposedActions.Some? ==>
              && r.value.status.Completed?
              && Owns(env.adapter, caller, s.sh.log.submitted.consumerId, s.sh.log.submitted.principalHash)
              && forall k | 0 <= k < |r.value.proposedActions.value| ::
                   var a := r.value.proposedActions.value[k];
                   && a.actionId in s.sh.log.stored && s.sh.log.stored[a.actionId].action == a
                   && JobInvariants.OwnProposal(env, s.sh.log.submitted, s.sh.log.stored[a.actionId])
  {
    hide JobTheorems.ReachableBy, JobInvariants.ProposalsInv, JobInvariants.TokenInv, JobInvariants.CancelInv,
      JobInvariants.ProcInv, JobInvariants.OwnProposal, JobInvariants.CarriesAll;
    JobTheorems.ReachableInv(env, s);
    var n := |s.sh.log.results|;
    if n > 0 {
      JobTheorems.ResultsAreStored(env, s, n - 1);
    }
  }
}
