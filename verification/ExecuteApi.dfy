/** The execute handler over the store. */
module ExecuteApi {
  import opened Wrappers
  import opened Json
  import opened Schemas
  import opened JobKeys
  import opened RedisStore
  import Hash = RequestHash
  import opened ResearchApi
  import opened ActionProtocol
  import opened Jira

  /** What the store says of proposals, with what has happened so far. */
  ghost function View(store: Store, saved: map<string, Entry<StoredProposal>>, log: seq<Event>): World
    reads store
  {
    World(store.proposals, store.idempotency, store.now, saved, log)
  }

  method FindProposal(store: Store, env: Env, actionId: string, caller: Caller) returns (r: Option<StoredProposal>)
    ensures r == AuthorizedProposal(env, Lookup(store.proposals, actionId), store.now, caller)
  {
    r := store.GetProposal(actionId);
    if r.Some? && !Owns(env.adapter, caller, r.value.consumerId, r.value.principalHash) {
      r := None;
    }
  }

  /** Rejecting over the store is the protocol's step, so what holds of all runs holds of the handler. */
  method Reject(store: Store, env: Env, id: string, caller: Caller, trace: Trace,
                ghost saved: map<string, Entry<StoredProposal>>, ghost log: seq<Event>)
    returns (r: Result<ActionResponse, ErrorCode>, ghost after: seq<Event>)
    modifies store`proposals
    ensures forall j :: store.Of(j) == old(store.Of(j))
    ensures View(store, saved, after) == Act(env, old(View(store, saved, log)), Op.Reject(id, caller, trace))
    ensures r.Ok? ==> id !in store.proposals
  {
    hide Owns;
    ghost var before := store.proposals;
    r := RejectAction(store, env, id, caller, trace);
    after := if r.Ok? then log + [Rejected(id)] else log;
    if r.Ok? {
      assert store.proposals == store.proposals - {id} == before - {id};
    }
  }

  /** Compares the payload with the proposal, then validates it. */
  method CheckPayload(env: Env, action: ProposedAction, approved: Dict) returns (refusal: Option<ErrorCode>)
    ensures refusal == PayloadRefusal(env, action, approved)
    ensures refusal.None? <==> UnexpectedFields(action, approved) == {}
                               && env.adapter.validate(action.actionType, approved).Valid?
  {
    hide UnexpectedFields;
    if UnexpectedFields(action, approved) != {} {
      return Some(PayloadMismatch);
    }
    var validation := env.adapter.validate(action.actionType, approved);
    if validation.Unsupported? {
      return Some(UnsupportedAction);
    } else if validation.Invalid? {
      return Some(ValidationError);
    }
    return None;
  }

  /** Loads the proposal, checks whose it is and that it has not expired, then the payload. */
  method Review(store: Store, env: Env, q: ExecuteRequest) returns (v: Verdict)
    ensures v == Examine(env, store.proposals, store.now, q) && !v.Replay?
  {
    hide PayloadRefusal, Owns;
    var found := FindProposal(store, env, q.actionId, q.caller);
    if found.None? {
      return Decline(ActionExpired);
    }
    var stored := found.value;
    if stored.action.expiresAt <= store.now {
      return Overdue;
    }
    var refusal := CheckPayload(env, stored.action, q.approved);
    if refusal.Some? {
      return Decline(refusal.value);
    }
    return Cleared(stored);
  }

  /**
   Everything before the live calls: replay, load and authorise, compare with the proposal,
   validate. Either the request is answered here or its proposal is cleared.
   */
  method Admit(store: Store, env: Env, q: ExecuteRequest, waited: nat, halt: Halt,
               ghost saved: map<string, Entry<StoredProposal>>, ghost log: seq<Event>)
    returns (cleared: Option<StoredProposal>, reply: Reply)
    modifies store
    ensures forall j :: store.Of(j) == old(store.Of(j))
    ensures var v := Judge(env, old(store.idempotency), old(store.proposals), old(store.now),
                           old(store.now) + waited, q);
            if !halt.Early? && v.Cleared? then
              && cleared == Some(v.stored)
              && View(store, saved, log) == old(View(store, saved, log)).(now := store.now)
              && store.now == old(store.now) + waited
            else
              && cleared == None
              && forall d: Downstream ::
                   (View(store, saved, log), reply) == Perform(env, old(View(store, saved, log)), q, waited, d, halt)
  {
    hide Hash.HashInput, Examine, CallAdapter;
    cleared, reply := None, None;
    var hash := Hash.HashInput(q.actionId, q.approved);
    var existing := store.GetIdempotency(q.key);
    store.Wait(waited);
    if halt.Early? {
      return;
    }
    if existing.Some? {
      if existing.value.requestHash != hash {
        return None, Some(Err(IdempotentReplay));
      }
      var replay := existing.value.response.(idempotentReplay := true);
      replay := replay.(correlationId := CorrelationOf(q.trace));
      return None, Some(Ok(replay));
    }
    var verdict := Review(store, env, q);
    match verdict {
      case Decline(code) => return None, Some(Err(code));
      case Overdue =>
        store.DeleteProposal(q.actionId);
        return None, Some(Err(ActionExpired));
      case Cleared(stored) => return Some(stored), None;
    }
  }

  /**
   Executes an approved action with any adapter. The live calls turn out as `d` says; the
   handler stops where `halt` says.
   */
  method ExecuteAction(store: Store, env: Env, q: ExecuteRequest, waited: nat, d: Downstream, halt: Halt,
                       ghost saved: map<string, Entry<StoredProposal>>, ghost log: seq<Event>)
    returns (reply: Reply, ghost after: seq<Event>)
    requires env.settings == store.settings
    modifies store
    ensures forall j :: store.Of(j) == old(store.Of(j))
    ensures (View(store, saved, after), reply) == Perform(env, old(View(store, saved, log)), q, waited, d, halt)
  {
    hide Judge, CallAdapter;
    after := log;
    var cleared;
    cleared, reply := Admit(store, env, q, waited, halt, saved, log);
    if cleared.Some? {
      reply, after := Mutate(store, env, q, cleared.value, d, halt, saved, log);
    }
  }

  /** The live part: preconditions, the mutation, its record, the proposal's end. */
  method Mutate(store: Store, env: Env, q: ExecuteRequest, stored: StoredProposal, d: Downstream, halt: Halt,
                ghost saved: map<string, Entry<StoredProposal>>, ghost log: seq<Event>)
    returns (reply: Reply, ghost after: seq<Event>)
    requires env.settings == store.settings
    modifies store
    ensures forall j :: store.Of(j) == old(store.Of(j))
    ensures (View(store, saved, after), reply) == CallAdapter(env, old(View(store, saved, log)), q, stored, d, halt)
  {
    hide Hash.HashInput;
    after := log;
    ghost var vettedAt := store.now;
    store.Wait(d.took);
    if d.check.CheckFailed? {
      return Some(Err(DownstreamError)), log;
    } else if d.check.Drifted? {
      return Some(Err(StaleTarget)), log;
    }
    after := log + [Called(q.key, stored.action, q.approved, vettedAt, d.exec.Done?)];
    if halt.Midway? {
      return None, after;
    }
    match d.exec {
      case NotSupported => return Some(Err(UnsupportedAction)), after;
      case BadPayload => return Some(Err(InternalError)), after;
      case Refused => return Some(Err(DownstreamError)), after;
      case Done(result, url) =>
        var response := ExecuteResponse(q.actionId, result, url, false, Joined(q.trace, stored));
        var record := IdempotencyRecord(Hash.HashInput(q.actionId, q.approved), response);
        store.PutIdempotency(q.key, record);
        after := after + [Recorded(q.key, q.actionId, q.approved, record, store.now + store.settings.idempotencyTtl)];
        if halt.Late? {
          return None, after;
        }
        store.DeleteProposal(q.actionId);
        return Some(Ok(response)), after;
    }
  }

  /** The live calls on Jira, given the server's replies. */
  function JiraDownstream(baseUrl: string, action: ProposedAction, approved: Dict, issue: IssueReply,
                          mutation: MutationReply, took: nat): Downstream {
    Downstream(Precheck(action, issue), MutationOutcome(baseUrl, action.actionType, approved, mutation), took)
  }

  /** Jira is only ever changed while the issue exists and is in the state the human approved. */
  lemma OnlyUndriftedIssuesMutated(env: Env, w: World, q: ExecuteRequest, waited: nat, baseUrl: string,
                                   issue: IssueReply, mutation: MutationReply, took: nat, halt: Halt)
    requires Judge(env, w.idem, w.proposals, w.now, w.now + waited, q).Cleared?
    ensures var action := Judge(env, w.idem, w.proposals, w.now, w.now + waited, q).stored.action;
            var d := JiraDownstream(baseUrl, action, q.approved, issue, mutation, took);
            Perform(env, w, q, waited, d, halt).0.log != w.log ==>
              && issue.code < 400
              && ("expected_status" in action.preconditions ==>
                    PyEq(issue.statusName, action.preconditions["expected_status"]))
              && ("expected_updated" in action.preconditions ==>
                    PyEq(issue.updated, action.preconditions["expected_updated"]))
  {
    hide Judge, MutationOutcome, Hash.HashInput;
  }

  /**
   The same handler on the Jira adapter. The server is sent nothing by a request that is
   answered early, the check alone by one whose target has drifted, and otherwise the check
   and then the mutation.
   */
  method ExecuteOnJira(store: Store, site: Site, env: Env, q: ExecuteRequest, waited: nat, issue: IssueReply,
                       mutation: MutationReply, took: nat, halt: Halt,
                       ghost saved: map<string, Entry<StoredProposal>>, ghost log: seq<Event>)
    returns (reply: Reply, ghost after: seq<Event>)
    requires env.settings == store.settings && env.adapter == JIRA
    modifies store, site
    ensures forall j :: store.Of(j) == old(store.Of(j))
    ensures var v := Judge(env, old(store.idempotency), old(store.proposals), old(store.now),
                           old(store.now) + waited, q);
            if !halt.Early? && v.Cleared? then
              var d := JiraDownstream(site.baseUrl, v.stored.action, q.approved, issue, mutation, took);
              && (View(store, saved, after), reply) == Perform(env, old(View(store, saved, log)), q, waited, d, halt)
              && site.calls == old(site.calls) + CheckCalls(v.stored.action)
                               + if d.check.Fine? then MutationCalls(v.stored.action.actionType, q.approved) else []
            else
              && site.calls == old(site.calls)
              && forall d: Downstream ::
                   (View(store, saved, after), reply) == Perform(env, old(View(store, saved, log)), q, waited, d, halt)
  {
    hide Judge, CallAdapter, Precheck, MutationOutcome, CheckCalls, MutationCalls;
    after := log;
    var cleared;
    cleared, reply := Admit(store, env, q, waited, halt, saved, log);
    if cleared.Some? {
      var action := cleared.value.action;
      var check := site.CheckPreconditions(action, issue);
      // Immaterial unless the check passes.
      var exec := MutationOutcome(site.baseUrl, action.actionType, q.approved, mutation);
      if check.Fine? {
        exec := site.Execute(action, q.approved, mutation);
      }
      reply, after := Mutate(store, env, q, cleared.value, Downstream(check, exec, took), halt, saved, log);
    }
  }
}
