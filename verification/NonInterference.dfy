/**
 Callers cannot tell what others have stored, nor change it: poll, cancel, reading and
 rejecting an action depend on the caller's own jobs and proposals only.
 */
module NonInterference {
  import opened Wrappers
  import opened Schemas
  import opened JobKeys
  import opened RedisStore
  import opened ResearchApi

  /** The stored state of all jobs and proposals, as values. */
  datatype Snapshot = Snapshot(jobs: map<string, JobKeys>, proposals: map<string, Entry<StoredProposal>>)

  function JobOf(s: Snapshot, jobId: string): JobKeys {
    if jobId in s.jobs then s.jobs[jobId] else NO_KEYS
  }

  function ProposalOf(s: Snapshot, actionId: string): Option<Entry<StoredProposal>> {
    if actionId in s.proposals then Some(s.proposals[actionId]) else None
  }

  datatype Request =
    | Poll(jobId: string)
    | Cancel(jobId: string)
    | GetAction(actionId: string, trace: Trace)
    | Reject(actionId: string, trace: Trace)

  datatype Response =
    | OfJob(status: Result<StatusResponse, ErrorCode>)
    | OfAction(action: Result<ActionResponse, ErrorCode>)

  function Handle(env: Env, s: Snapshot, now: int, caller: Caller, q: Request): (Snapshot, Response) {
    match q
    case Poll(id) => (s, OfJob(PollResult(env, JobOf(s, id), now, caller)))
    case Cancel(id) =>
      var (k, r) := CancelResult(env, JobOf(s, id), now, caller);
      (s.(jobs := s.jobs[id := k]), OfJob(r))
    case GetAction(id, trace) => (s, OfAction(GetActionResult(env, ProposalOf(s, id), now, caller, id, trace)))
    case Reject(id, trace) =>
      var (e, r) := RejectResult(env, ProposalOf(s, id), now, caller, id, trace);
      (s.(proposals := if e.None? then s.proposals - {id} else s.proposals), OfAction(r))
  }

  /** Requests of one caller, each some time after the one before. */
  datatype Call = Call(after: nat, request: Request)

  function Serve(env: Env, s: Snapshot, now: int, caller: Caller, calls: seq<Call>): (Snapshot, seq<Response>)
    decreases |calls|
  {
    if calls == [] then (s, [])
    else
      var at := now + calls[0].after;
      var (next, r) := Handle(env, s, at, caller, calls[0].request);
      var (end, rest) := Serve(env, next, at, caller, calls[1..]);
      (end, [r] + rest)
  }

  predicate OwnsJob(env: Env, caller: Caller, k: JobKeys) {
    k.record.Some? && Owns(env.adapter, caller, k.record.value.value.consumerId, k.record.value.value.principalHash)
  }

  predicate OwnsProposal(env: Env, caller: Caller, e: Option<Entry<StoredProposal>>) {
    e.Some? && Owns(env.adapter, caller, e.value.value.consumerId, e.value.value.principalHash)
  }

  /** The two states hold the same jobs and proposals of the caller's; anything else may differ. */
  ghost predicate Agree(env: Env, caller: Caller, s: Snapshot, t: Snapshot) {
    && (forall id :: OwnsJob(env, caller, JobOf(s, id)) || OwnsJob(env, caller, JobOf(t, id))
                     ==> JobOf(s, id) == JobOf(t, id))
    && (forall id :: OwnsProposal(env, caller, ProposalOf(s, id)) || OwnsProposal(env, caller, ProposalOf(t, id))
                     ==> ProposalOf(s, id) == ProposalOf(t, id))
  }

  /** Without ownership every request gets the answer for something that does not exist, and changes nothing. */
  lemma StrangerRefused(env: Env, s: Snapshot, now: int, caller: Caller, q: Request)
    requires match q
             case Poll(id) => !OwnsJob(env, caller, JobOf(s, id))
             case Cancel(id) => !OwnsJob(env, caller, JobOf(s, id))
             case GetAction(id, _) => !OwnsProposal(env, caller, ProposalOf(s, id))
             case Reject(id, _) => !OwnsProposal(env, caller, ProposalOf(s, id))
    ensures var (t, r) := Handle(env, s, now, caller, q);
            && (forall id :: JobOf(t, id) == JobOf(s, id))
            && (forall id :: ProposalOf(t, id) == ProposalOf(s, id))
            && r == if q.Poll? || q.Cancel? then OfJob(Err(JobNotFound)) else OfAction(Err(ActionExpired))
  {
  }

  /** No request touches what the caller does not own. */
  lemma OthersUntouched(env: Env, s: Snapshot, now: int, caller: Caller, q: Request)
    ensures var t := Handle(env, s, now, caller, q).0;
            && (forall id :: !OwnsJob(env, caller, JobOf(s, id)) ==> JobOf(t, id) == JobOf(s, id))
            && (forall id :: !OwnsProposal(env, caller, ProposalOf(s, id)) ==> ProposalOf(t, id) == ProposalOf(s, id))
  {
  }

  lemma HandleAgrees(env: Env, s: Snapshot, t: Snapshot, now: int, caller: Caller, q: Request)
    requires Agree(env, caller, s, t)
    ensures Handle(env, s, now, caller, q).1 == Handle(env, t, now, caller, q).1
    ensures Agree(env, caller, Handle(env, s, now, caller, q).0, Handle(env, t, now, caller, q).0)
  {
    hide PollResult, CancelResult;
    match q {
      case Poll(id) => SameJobAnswers(env, JobOf(s, id), JobOf(t, id), now, caller);
      case Cancel(id) => CancelAgrees(env, s, t, now, caller, id);
      case GetAction(id, trace) =>
      case Reject(id, trace) => RejectAgrees(env, s, t, now, caller, id, trace);
    }
  }

  lemma CancelAgrees(env: Env, s: Snapshot, t: Snapshot, now: int, caller: Caller, id: string)
    requires Agree(env, caller, s, t)
    ensures Handle(env, s, now, caller, Cancel(id)).1 == Handle(env, t, now, caller, Cancel(id)).1
    ensures Agree(env, caller, Handle(env, s, now, caller, Cancel(id)).0, Handle(env, t, now, caller, Cancel(id)).0)
  {
    hide CancelResult, Owns;
    SameJobAnswers(env, JobOf(s, id), JobOf(t, id), now, caller);
    var s', t' := Handle(env, s, now, caller, Cancel(id)).0, Handle(env, t, now, caller, Cancel(id)).0;
    forall x | OwnsJob(env, caller, JobOf(s', x)) || OwnsJob(env, caller, JobOf(t', x))
      ensures JobOf(s', x) == JobOf(t', x)
    {
      if x != id { assert JobOf(s', x) == JobOf(s, x) && JobOf(t', x) == JobOf(t, x); }
    }
    assert forall x :: ProposalOf(s', x) == ProposalOf(s, x) && ProposalOf(t', x) == ProposalOf(t, x);
  }

  lemma RejectAgrees(env: Env, s: Snapshot, t: Snapshot, now: int, caller: Caller, id: string, trace: Trace)
    requires Agree(env, caller, s, t)
    ensures Handle(env, s, now, caller, Reject(id, trace)).1 == Handle(env, t, now, caller, Reject(id, trace)).1
    ensures Agree(env, caller, Handle(env, s, now, caller, Reject(id, trace)).0,
                  Handle(env, t, now, caller, Reject(id, trace)).0)
  {
    var s', t' := Handle(env, s, now, caller, Reject(id, trace)).0, Handle(env, t, now, caller, Reject(id, trace)).0;
    assert forall x :: JobOf(s', x) == JobOf(s, x) && JobOf(t', x) == JobOf(t, x);
    assert forall x | x != id :: ProposalOf(s', x) == ProposalOf(s, x) && ProposalOf(t', x) == ProposalOf(t, x);
  }

  lemma SameJobAnswers(env: Env, k: JobKeys, l: JobKeys, now: int, caller: Caller)
    requires OwnsJob(env, caller, k) || OwnsJob(env, caller, l) ==> k == l
    ensures PollResult(env, k, now, caller) == PollResult(env, l, now, caller)
    ensures CancelResult(env, k, now, caller).1 == CancelResult(env, l, now, caller).1
    ensures !OwnsJob(env, caller, k) ==> CancelResult(env, k, now, caller).0 == k
    ensures !OwnsJob(env, caller, l) ==> CancelResult(env, l, now, caller).0 == l
  {
  }

  /**
   Two stores that agree on the caller's own jobs and proposals give the caller the same
   answers to every sequence of requests, at all times, and still agree afterwards.
   */
  lemma {:induction false} ServeAgrees(env: Env, s: Snapshot, t: Snapshot, now: int, caller: Caller, calls: seq<Call>)
    requires Agree(env, caller, s, t)
    ensures var ((s', rs), (t', us)) := (Serve(env, s, now, caller, calls), Serve(env, t, now, caller, calls));
            rs == us && Agree(env, caller, s', t')
    decreases |calls|
  {
    hide Agree, Handle;
    if calls != [] {
      var at := now + calls[0].after;
      HandleAgrees(env, s, t, at, caller, calls[0].request);
      var (s1, r) := Handle(env, s, at, caller, calls[0].request);
      var (t1, u) := Handle(env, t, at, caller, calls[0].request);
      ServeAgrees(env, s1, t1, at, caller, calls[1..]);
    }
  }

  // ---- The handlers over the store ----

  /** The store holds what the snapshot says. */
  ghost predicate Represents(store: Store, s: Snapshot)
    reads store
  {
    (forall id :: JobOf(s, id) == store.Of(id)) && (forall id :: ProposalOf(s, id) == Lookup(store.proposals, id))
  }

  /** Every record is stored under its own id. */
  ghost predicate Sound(store: Store)
    reads store
  {
    forall id :: Stored(store, id)
  }

  /** A request handled over the store: answer and new state are those of the snapshot's. */
  method Answer(store: Store, env: Env, caller: Caller, q: Request, ghost s: Snapshot) returns (r: Response)
    requires env.settings == store.settings && Sound(store) && Represents(store, s)
    modifies store
    ensures Sound(store) && store.now == old(store.now)
    ensures Represents(store, Handle(env, s, store.now, caller, q).0) && r == Handle(env, s, store.now, caller, q).1
  {
    hide PollResult, CancelResult, GetActionResult;
    match q {
      case Poll(id) =>
        var status := PollResearch(store, env, id, caller);
        r := OfJob(status);
      case Cancel(id) =>
        r := AnswerCancel(store, env, caller, id, s);
      case GetAction(id, trace) =>
        var action := ResearchApi.GetAction(store, env, id, caller, trace);
        r := OfAction(action);
      case Reject(id, trace) =>
        r := AnswerReject(store, env, caller, id, trace, s);
    }
  }

  /** Time passes; what is stored stays. */
  method Pass(store: Store, seconds: nat, ghost s: Snapshot)
    requires Sound(store) && Represents(store, s)
    modifies store
    ensures Sound(store) && Represents(store, s) && store.now == old(store.now) + seconds
  {
    store.Wait(seconds);
    forall x ensures Stored(store, x) {
      assert old(Stored(store, x));
    }
  }

  method AnswerCancel(store: Store, env: Env, caller: Caller, id: string, ghost s: Snapshot) returns (r: Response)
    requires env.settings == store.settings && Sound(store) && Represents(store, s)
    modifies store
    ensures Sound(store) && store.now == old(store.now)
    ensures var (t, answer) := Handle(env, s, store.now, caller, Cancel(id));
            Represents(store, t) && r == answer
  {
    hide CancelResult;
    var status := CancelResearch(store, env, id, caller);
    forall x | x != id ensures Stored(store, x) {
      assert store.Of(x) == old(store.Of(x));
      assert old(Stored(store, x));
    }
    r := OfJob(status);
  }

  method AnswerReject(store: Store, env: Env, caller: Caller, id: string, trace: Trace, ghost s: Snapshot)
    returns (r: Response)
    requires env.settings == store.settings && Sound(store) && Represents(store, s)
    modifies store`proposals
    ensures Sound(store)
    ensures var (t, answer) := Handle(env, s, store.now, caller, Reject(id, trace));
            Represents(store, t) && r == answer
  {
    hide Owns;
    ghost var before := store.proposals;
    var action := RejectAction(store, env, id, caller, trace);
    forall x | x != id ensures Lookup(store.proposals, x) == Lookup(before, x) {
      assert x in store.proposals <==> x in store.proposals - {id};
      assert x in before <==> x in before - {id};
    }
    forall x ensures Stored(store, x) {
      assert old(Stored(store, x));
    }
    r := OfAction(action);
  }

  lemma ServeOne(env: Env, s: Snapshot, now: int, caller: Caller, calls: seq<Call>, done: seq<Response>)
    requires calls != []
    ensures var (next, r) := Handle(env, s, now + calls[0].after, caller, calls[0].request);
            var (last, rest) := Serve(env, s, now, caller, calls);
            var (end, others) := Serve(env, next, now + calls[0].after, caller, calls[1..]);
            last == end && done + rest == done + [r] + others
  {
    hide Handle;
  }

  /**
   All requests of a caller over the store, one after another. With `ServeAgrees`: two stores
   that represent agreeing snapshots answer alike throughout.
   */
  method AnswerAll(store: Store, env: Env, caller: Caller, calls: seq<Call>, ghost s: Snapshot)
    returns (rs: seq<Response>, ghost end: Snapshot)
    requires env.settings == store.settings && Sound(store) && Represents(store, s)
    modifies store
    ensures Sound(store) && Represents(store, end)
    ensures (end, rs) == Serve(env, s, old(store.now), caller, calls)
  {
    hide Handle, Represents, Sound, Serve;
    rs, end := [], s;
    var i := 0;
    assert calls[0..] == calls;
    ghost var (last, all) := Serve(env, s, store.now, caller, calls);
    assert [] + all == all;
    while i < |calls|
      invariant i <= |calls|
      invariant Sound(store) && Represents(store, end)
      invariant var (final, rest) := Serve(env, end, store.now, caller, calls[i..]);
                (last, all) == (final, rs + rest)
    {
      assert calls[i..][1..] == calls[i + 1..];
      ServeOne(env, end, store.now, caller, calls[i..], rs);
      Pass(store, calls[i].after, end);
      ghost var before := end;
      end := Handle(env, before, store.now, caller, calls[i].request).0;
      var r := Answer(store, env, caller, calls[i].request, before);
      rs := rs + [r];
      i := i + 1;
    }
    NoCalls(env, end, store.now, caller, calls[i..]);
    assert rs + [] == rs;
  }

  lemma NoCalls(env: Env, s: Snapshot, now: int, caller: Caller, calls: seq<Call>)
    requires calls == []
    ensures Serve(env, s, now, caller, calls) == (s, [])
  {
  }
}
