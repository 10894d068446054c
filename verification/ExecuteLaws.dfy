/** What callers of the execute endpoint are told, case by case, and what a request leaves behind. */
module ExecuteLaws {
  import opened Wrappers
  import opened Json
  import opened Schemas
  import opened JobKeys
  import opened RedisStore
  import Hash = RequestHash
  import opened ResearchLaws
  import opened ActionProtocol

  // ---- Whose proposals ----

  /** With user tokens a live proposal is closed to every other principal, whichever consumer asks. */
  lemma ExecuteByPrincipal(env: Env, proposals: map<string, Entry<StoredProposal>>, at: int, q: ExecuteRequest)
    requires env.adapter.userPat && q.actionId in proposals && at < proposals[q.actionId].expiry
    ensures Examine(env, proposals, at, q) == Decline(ActionExpired)
       <==> proposals[q.actionId].value.principalHash != Some(q.caller.presentedHash)
  {
    hide UnexpectedFields;
  }

  /** Without user tokens it is closed to every other consumer, whatever the hashes. */
  lemma ExecuteByConsumer(env: Env, proposals: map<string, Entry<StoredProposal>>, at: int, q: ExecuteRequest)
    requires !env.adapter.userPat && q.actionId in proposals && at < proposals[q.actionId].expiry
    ensures Examine(env, proposals, at, q) == Decline(ActionExpired)
       <==> proposals[q.actionId].value.consumerId != q.caller.consumerId
  {
    hide UnexpectedFields;
  }

  lemma ExecuteMissing(env: Env, proposals: map<string, Entry<StoredProposal>>, at: int, q: ExecuteRequest)
    requires q.actionId in proposals ==> proposals[q.actionId].expiry <= at
    ensures Examine(env, proposals, at, q) == Decline(ActionExpired)
  {
  }

  /** A request that is declined leaves everything as it was. */
  lemma DeclinedDoesNothing(env: Env, w: World, q: ExecuteRequest, waited: nat, d: Downstream)
    requires Live(Lookup(w.idem, q.key), w.now).None? && Examine(env, w.proposals, w.now + waited, q).Decline?
    ensures Perform(env, w, q, waited, d, Never)
         == (w.(now := w.now + waited), Some(Err(Examine(env, w.proposals, w.now + waited, q).code)))
  {
    hide Examine, CallAdapter;
  }

  // ---- Why a request of the owner is refused ----

  /**
   A live proposal that is past its `expires_at` is told as expired and deleted; otherwise a
   difference outside the editable fields is a mismatch, and only then does the schema decide.
   */
  lemma OwnerExamined(env: Env, proposals: map<string, Entry<StoredProposal>>, at: int, q: ExecuteRequest)
    requires Examine(env, proposals, at, q) != Decline(ActionExpired)
    ensures q.actionId in proposals
    ensures var action := proposals[q.actionId].value.action;
            var differs := exists key :: key !in action.editableFields
                                         && !PyEq(Get(action.payload, key), Get(q.approved, key));
            var validation := env.adapter.validate(action.actionType, q.approved);
            Examine(env, proposals, at, q)
            == if action.expiresAt <= at then Overdue
               else if differs then Decline(PayloadMismatch)
               else if validation == Unsupported then Decline(UnsupportedAction)
               else if validation == Invalid then Decline(ValidationError)
               else Cleared(proposals[q.actionId].value)
  {
    hide PyEq;
    var action := proposals[q.actionId].value.action;
    AbsentIsNull(action.payload, q.approved);
    if UnexpectedFields(action, q.approved) != {} {
      var key :| key in UnexpectedFields(action, q.approved);
      assert !PyEq(Get(action.payload, key), Get(q.approved, key));
    } else {
      forall key | key !in action.editableFields ensures PyEq(Get(action.payload, key), Get(q.approved, key)) {
        assert key !in UnexpectedFields(action, q.approved);
      }
    }
  }

  lemma AbsentIsNull(a: Dict, b: Dict)
    ensures forall key | key !in a.Keys + b.Keys :: PyEq(Get(a, key), Get(b, key))
  {
  }

  // ---- What the live calls lead to ----

  /** Nothing but time has passed, and perhaps the call that failed is on the log. */
  predicate Untouched(w: World, t: World) {
    t.proposals == w.proposals && t.idem == w.idem && t.saved == w.saved
  }

  /** A cleared request that comes to nothing is told why, and leaves proposal and key as they were. */
  lemma FailuresTold(env: Env, w: World, q: ExecuteRequest, waited: nat, d: Downstream)
    requires Judge(env, w.idem, w.proposals, w.now, w.now + waited, q).Cleared?
    requires !d.check.Fine? || !d.exec.Done?
    ensures var (t, reply) := Perform(env, w, q, waited, d, Never);
            && Untouched(w, t)
            && reply == Some(Err(match d.check
                                 case CheckFailed => DownstreamError
                                 case Drifted => StaleTarget
                                 case Fine =>
                                   match d.exec
                                   case NotSupported => UnsupportedAction
                                   case Refused => DownstreamError
                                   case _ => InternalError))
  {
    hide Judge;
  }

  /** A cleared request that succeeds returns the outcome, records it for its key and uses the proposal up. */
  lemma SuccessTold(env: Env, w: World, q: ExecuteRequest, waited: nat, d: Downstream)
    requires Judge(env, w.idem, w.proposals, w.now, w.now + waited, q).Cleared?
    requires d.check.Fine? && d.exec.Done?
    ensures var p := Judge(env, w.idem, w.proposals, w.now, w.now + waited, q).stored;
            var (t, reply) := Perform(env, w, q, waited, d, Never);
            && t.now == w.now + waited + d.took
            && reply.Some? && reply.value.Ok?
            && (var r := reply.value.value;
                && r.actionId == q.actionId && r.result == d.exec.result && r.resourceUrl == d.exec.resourceUrl
                && !r.idempotentReplay && Correlated(q.trace, p.action, r.correlationId)
                && t.idem == w.idem[q.key := Entry(IdempotencyRecord(Hash.HashInput(q.actionId, q.approved), r),
                                                   t.now + env.settings.idempotencyTtl)]
                && t.proposals == w.proposals - {q.actionId})
  {
    hide Judge, Hash.HashInput;
  }

  /** A replay is the recorded answer, marked, under the caller's own correlation id. */
  lemma ReplayTold(env: Env, w: World, q: ExecuteRequest, waited: nat, d: Downstream)
    requires q.key in w.idem && w.now < w.idem[q.key].expiry
    requires w.idem[q.key].value.requestHash == Hash.HashInput(q.actionId, q.approved)
    ensures var recorded := w.idem[q.key].value.response;
            var id := if q.trace.header == None || q.trace.header == Some("") then q.trace.minted
                      else q.trace.header.value;
            Perform(env, w, q, waited, d, Never)
            == (w.(now := w.now + waited),
                Some(Ok(ExecuteResponse(recorded.actionId, recorded.result, recorded.resourceUrl, true, id))))
  {
    hide Hash.HashInput, CallAdapter, Examine;
  }

  /** A request that comes after the proposal's `expires_at` is told so, and the proposal is deleted. */
  lemma OverdueTold(env: Env, w: World, q: ExecuteRequest, waited: nat, d: Downstream)
    requires Judge(env, w.idem, w.proposals, w.now, w.now + waited, q).Overdue?
    ensures Perform(env, w, q, waited, d, Never)
         == (w.(now := w.now + waited, proposals := w.proposals - {q.actionId}), Some(Err(ActionExpired)))
  {
    hide Judge, CallAdapter;
  }
}
