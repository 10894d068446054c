/** What every reachable world of proposals satisfies, and how each step keeps it. */
module ActionInvariants {
  import opened Json
  import opened Schemas
  import opened JobKeys
  import Hash = RequestHash
  import opened ActionProtocol

  // ---- Invariant ----

  predicate SavedInv(env: Env, w: World) {
    && (forall id | id in w.saved ::
          && w.saved[id].value.action.actionId == id
          && FromWorker(env, w.saved[id].expiry - env.settings.proposalTtl, w.saved[id].value)
          && w.saved[id].expiry <= w.now + env.settings.proposalTtl)
    && (forall id | id in w.proposals :: id in w.saved && w.proposals[id] == w.saved[id])
  }

  /** A call that reached the adapter had been vetted against the stored, unexpired proposal. */
  predicate Vetted(env: Env, w: World, e: Event)
    requires e.Called?
  {
    var id := e.action.actionId;
    && id in w.saved && e.action == w.saved[id].value.action
    && e.vettedAt < e.action.expiresAt
    && UnexpectedFields(e.action, e.approved) == {}
    && env.adapter.validate(e.action.actionType, e.approved).Valid?
  }

  /** A recorded outcome stays under its key until it expires; the proposal does not outlive it. */
  predicate Kept(env: Env, w: World, e: Event)
    requires e.Recorded?
  {
    && e.actionId in w.saved
    && e.record.requestHash == Hash.HashInput(e.actionId, e.payload)
    && e.usedKey in w.idem && w.idem[e.usedKey].expiry >= e.expiry
    && (w.now < e.expiry ==> w.idem[e.usedKey] == Entry(e.record, e.expiry))
    && (env.settings.proposalTtl <= env.settings.idempotencyTtl ==> w.saved[e.actionId].expiry <= e.expiry)
  }

  predicate EventInv(env: Env, w: World, e: Event) {
    match e
    case Called(_, _, _, _, _) => Vetted(env, w, e)
    case Recorded(_, _, _, _, _) => Kept(env, w, e)
    case Rejected(id) => id in w.saved && id !in w.proposals
  }

  predicate Ends(e: Event, id: string) {
    (e.Called? && e.done && e.action.actionId == id) || (e.Rejected? && e.rejectedId == id)
  }

  /** A proposal that is gone has been executed or rejected, or its time is up. */
  predicate GoneInv(w: World) {
    forall id | id in w.saved && id !in w.proposals ::
      (exists i :: 0 <= i < |w.log| && Ends(w.log[i], id)) || w.saved[id].value.action.expiresAt <= w.now
  }

  predicate Inv(env: Env, w: World) {
    SavedInv(env, w) && GoneInv(w) && forall i | 0 <= i < |w.log| :: EventInv(env, w, w.log[i])
  }

  /** From `a` to `b` nothing is stored anew; keys are only taken over once their record has expired. */
  predicate Later(a: World, b: World) {
    && a.now <= b.now
    && (forall id | id in a.saved :: id in b.saved && b.saved[id] == a.saved[id])
    && (forall id | id in a.saved && id in b.proposals :: id in a.proposals)
    && (forall key | key in a.idem :: key in b.idem && b.idem[key].expiry >= a.idem[key].expiry
                                      && (b.now < a.idem[key].expiry ==> b.idem[key] == a.idem[key]))
    && a.log <= b.log
  }

  lemma EventKept(env: Env, a: World, b: World, e: Event)
    requires EventInv(env, a, e) && Later(a, b)
    ensures EventInv(env, b, e)
  {
    hide UnexpectedFields, Hash.HashInput;
  }

  /** The old events keep their invariant; only the new ones are left to show. */
  lemma StepKeeps(env: Env, a: World, b: World)
    requires Inv(env, a) && Later(a, b) && SavedInv(env, b) && GoneInv(b)
    requires forall i | |a.log| <= i < |b.log| :: EventInv(env, b, b.log[i])
    ensures Inv(env, b)
  {
    hide EventInv, Later, SavedInv, GoneInv;
    PrefixOf(a, b);
    forall i | 0 <= i < |a.log| ensures EventInv(env, b, b.log[i]) {
      EventKept(env, a, b, a.log[i]);
    }
  }

  lemma PrefixOf(a: World, b: World)
    requires Later(a, b)
    ensures a.log <= b.log
  {
  }

  /** Dropping a proposal whose end is already on the log, or whose time is up. */
  lemma GoneKept(a: World, b: World, id: string)
    requires GoneInv(a) && a.now <= b.now && a.log <= b.log && b.saved == a.saved
    requires b.proposals == a.proposals || (b.proposals == a.proposals - {id} && id in a.saved
             && ((exists i :: 0 <= i < |b.log| && Ends(b.log[i], id)) || a.saved[id].value.action.expiresAt <= b.now))
    ensures GoneInv(b)
  {
    hide Ends;
    forall x | x in b.saved && x !in b.proposals
      ensures (exists i :: 0 <= i < |b.log| && Ends(b.log[i], x)) || b.saved[x].value.action.expiresAt <= b.now
    {
      if x !in a.proposals && exists i :: 0 <= i < |a.log| && Ends(a.log[i], x) {
        var i :| 0 <= i < |a.log| && Ends(a.log[i], x);
        assert Ends(b.log[i], x);
      }
    }
  }

  /** What vetting established of a cleared request. */
  lemma ClearedFacts(env: Env, w: World, waited: nat, q: ExecuteRequest)
    requires SavedInv(env, w)
    requires var v := Judge(env, w.idem, w.proposals, w.now, w.now + waited, q); v.Cleared? || v.Overdue?
    ensures q.actionId in w.saved && q.actionId in w.proposals
    ensures w.now + waited < w.saved[q.actionId].expiry
    ensures q.key in w.idem ==> w.idem[q.key].expiry <= w.now
    ensures var v := Judge(env, w.idem, w.proposals, w.now, w.now + waited, q);
            if v.Cleared? then
              && v.stored == w.saved[q.actionId].value
              && v.stored.action.actionId == q.actionId
              && w.now + waited < v.stored.action.expiresAt
              && UnexpectedFields(v.stored.action, q.approved) == {}
              && env.adapter.validate(v.stored.action.actionType, q.approved).Valid?
            else w.saved[q.actionId].value.action.expiresAt <= w.now + waited
  {
    hide UnexpectedFields, Hash.HashInput;
  }

  lemma InvParts(env: Env, w: World)
    requires Inv(env, w)
    ensures SavedInv(env, w) && GoneInv(w)
  {
  }

  // ---- Each elementary change keeps the invariant ----

  lemma TimePasses(env: Env, w: World, n: nat)
    requires Inv(env, w)
    ensures var t := w.(now := w.now + n); Inv(env, t) && Later(w, t)
  {
    hide Inv, EventInv, Ends, FromWorker, GoneInv;
    var t := w.(now := w.now + n);
    InvParts(env, w);
    GoneKept(w, t, "");
    StepKeeps(env, w, t);
  }

  lemma Dropped(env: Env, w: World, id: string)
    requires Inv(env, w) && id in w.saved
    requires (exists i :: 0 <= i < |w.log| && Ends(w.log[i], id)) || w.saved[id].value.action.expiresAt <= w.now
    ensures var t := w.(proposals := w.proposals - {id}); Inv(env, t) && Later(w, t)
  {
    hide Inv, EventInv, Ends, FromWorker, GoneInv;
    var t := w.(proposals := w.proposals - {id});
    InvParts(env, w);
    GoneKept(w, t, id);
    StepKeeps(env, w, t);
  }

  lemma CallLogged(env: Env, w: World, e: Event)
    requires Inv(env, w) && e.Called? && Vetted(env, w, e)
    ensures var t := w.(log := w.log + [e]);
            Inv(env, t) && Later(w, t) && t.log[|w.log|] == e
  {
    hide Inv, Ends, FromWorker, UnexpectedFields, GoneInv;
    var t := w.(log := w.log + [e]);
    InvParts(env, w);
    GoneKept(w, t, "");
    StepKeeps(env, w, t);
  }

  lemma OutcomeRecorded(env: Env, w: World, key: string, id: string, payload: Dict, record: IdempotencyRecord)
    requires Inv(env, w) && id in w.saved && record.requestHash == Hash.HashInput(id, payload)
    requires key in w.idem ==> w.idem[key].expiry <= w.now
    ensures var expiry := w.now + env.settings.idempotencyTtl;
            var t := w.(idem := w.idem[key := Entry(record, expiry)],
                        log := w.log + [Recorded(key, id, payload, record, expiry)]);
            Inv(env, t) && Later(w, t)
  {
    hide Inv, Ends, FromWorker, Vetted, Hash.HashInput, GoneInv;
    var expiry := w.now + env.settings.idempotencyTtl;
    var t := w.(idem := w.idem[key := Entry(record, expiry)],
                log := w.log + [Recorded(key, id, payload, record, expiry)]);
    InvParts(env, w);
    GoneKept(w, t, "");
    StepKeeps(env, w, t);
  }

  lemma Withdrawn(env: Env, w: World, id: string)
    requires Inv(env, w) && id in w.proposals
    ensures var t := w.(proposals := w.proposals - {id}, log := w.log + [Rejected(id)]); Inv(env, t) && Later(w, t)
  {
    hide Inv, FromWorker, Vetted, Kept, GoneInv;
    var t := w.(proposals := w.proposals - {id}, log := w.log + [Rejected(id)]);
    InvParts(env, w);
    assert Ends(t.log[|w.log|], id);
    GoneKept(w, t, id);
    StepKeeps(env, w, t);
  }

  function Saved(env: Env, w: World, p: StoredProposal): World {
    var entry := Entry(p, w.now + env.settings.proposalTtl);
    w.(proposals := w.proposals[p.action.actionId := entry], saved := w.saved[p.action.actionId := entry])
  }

  lemma SavedGone(env: Env, w: World, p: StoredProposal)
    requires GoneInv(w) && p.action.actionId !in w.saved
    ensures GoneInv(Saved(env, w, p))
  {
    hide Ends;
    var t := Saved(env, w, p);
    forall x | x in t.saved && x !in t.proposals
      ensures (exists i :: 0 <= i < |t.log| && Ends(t.log[i], x)) || t.saved[x].value.action.expiresAt <= t.now
    {
      assert x in w.saved && x !in w.proposals;
    }
  }

  lemma SavedLater(env: Env, w: World, p: StoredProposal)
    requires p.action.actionId !in w.saved
    ensures Later(w, Saved(env, w, p))
  {
  }

  lemma SaveKeeps(env: Env, w: World, p: StoredProposal)
    requires Inv(env, w) && p.action.actionId !in w.saved && FromWorker(env, w.now, p)
    ensures Inv(env, Saved(env, w, p)) && Later(w, Saved(env, w, p))
  {
    hide FromWorker, Inv, EventInv, GoneInv, Later;
    InvParts(env, w);
    SavedGone(env, w, p);
    SavedLater(env, w, p);
    StepKeeps(env, w, Saved(env, w, p));
  }

  // ---- Requests ----

  lemma PerformKeeps(env: Env, w: World, q: ExecuteRequest, waited: nat, d: Downstream, halt: Halt)
    requires Inv(env, w)
    ensures var t := Perform(env, w, q, waited, d, halt).0; Inv(env, t) && Later(w, t)
  {
    hide Judge, UnexpectedFields, Hash.HashInput, Inv, Later, CallAdapter, FromWorker;
    var t := Perform(env, w, q, waited, d, halt).0;
    var vetted := w.(now := w.now + waited);
    InvParts(env, w);
    TimePasses(env, w, waited);
    var v := Judge(env, w.idem, w.proposals, w.now, vetted.now, q);
    if !halt.Early? && (v.Overdue? || v.Cleared?) {
      ClearedFacts(env, w, waited, q);
      if v.Overdue? {
        Dropped(env, vetted, q.actionId);
      } else {
        CallKeeps(env, vetted, q, v.stored, d, halt);
      }
      LaterTransitive(w, vetted, t);
    }
  }

  lemma CallKeeps(env: Env, w: World, q: ExecuteRequest, p: StoredProposal, d: Downstream, halt: Halt)
    requires Inv(env, w) && q.actionId in w.saved && p == w.saved[q.actionId].value
    requires p.action.actionId == q.actionId && w.now < p.action.expiresAt
    requires q.key in w.idem ==> w.idem[q.key].expiry <= w.now
    requires UnexpectedFields(p.action, q.approved) == {}
    requires env.adapter.validate(p.action.actionType, q.approved).Valid?
    ensures var t := CallAdapter(env, w, q, p, d, halt).0; Inv(env, t) && Later(w, t)
  {
    hide UnexpectedFields, Hash.HashInput, Inv, Settle, Later;
    var t := CallAdapter(env, w, q, p, d, halt).0;
    var later := w.(now := w.now + d.took);
    TimePasses(env, w, d.took);
    if d.check.Fine? {
      var e := Called(q.key, p.action, q.approved, w.now, d.exec.Done?);
      CallLogged(env, later, e);
      var called := later.(log := w.log + [e]);
      LaterTransitive(w, later, called);
      if !halt.Midway? && d.exec.Done? {
        assert Ends(called.log[|w.log|], q.actionId);
        SettleKeeps(env, called, q, p, d.exec, halt);
        LaterTransitive(w, called, t);
      }
    }
  }

  lemma SettleKeeps(env: Env, w: World, q: ExecuteRequest, p: StoredProposal, exec: ExecOutcome, halt: Halt)
    requires Inv(env, w) && exec.Done?
    requires q.actionId in w.saved && exists i :: 0 <= i < |w.log| && Ends(w.log[i], q.actionId)
    requires q.key in w.idem ==> w.idem[q.key].expiry <= w.now
    ensures var t := Settle(env, w, q, p, exec, halt).0; Inv(env, t) && Later(w, t)
  {
    hide Hash.HashInput, Inv, Later;
    var record := IdempotencyRecord(Hash.HashInput(q.actionId, q.approved), Response(q, p, exec));
    OutcomeRecorded(env, w, q.key, q.actionId, q.approved, record);
    var expiry := w.now + env.settings.idempotencyTtl;
    var recorded := w.(idem := w.idem[q.key := Entry(record, expiry)],
                       log := w.log + [Recorded(q.key, q.actionId, q.approved, record, expiry)]);
    if !halt.Late? {
      var i :| 0 <= i < |w.log| && Ends(w.log[i], q.actionId);
      assert Ends(recorded.log[i], q.actionId);
      Dropped(env, recorded, q.actionId);
      LaterTransitive(w, recorded, recorded.(proposals := w.proposals - {q.actionId}));
    }
  }

  lemma ActKeeps(env: Env, w: World, op: Op)
    requires Inv(env, w)
    ensures Inv(env, Act(env, w, op)) && Later(w, Act(env, w, op))
  {
    hide Perform, Inv, Later, FromWorker;
    match op {
      case Tick(n) => TimePasses(env, w, n);
      case Save(p) =>
        if Act(env, w, op) != w { SaveKeeps(env, w, p); } else { LaterReflexive(w); }
      case Execute(q, waited, d, halt) => PerformKeeps(env, w, q, waited, d, halt);
      case Reject(id, caller, trace) =>
        if Act(env, w, op) != w { Withdrawn(env, w, id); } else { LaterReflexive(w); }
    }
  }

  lemma LaterTransitive(a: World, b: World, c: World)
    requires Later(a, b) && Later(b, c)
    ensures Later(a, c)
  {
  }

  lemma {:induction false} RunKeeps(env: Env, w: World, ops: seq<Op>)
    requires Inv(env, w)
    ensures Inv(env, Run(env, w, ops)) && Later(w, Run(env, w, ops))
    decreases |ops|
  {
    hide Act, Inv, Later;
    if ops == [] {
      LaterReflexive(w);
    } else {
      ActKeeps(env, w, ops[0]);
      RunKeeps(env, Act(env, w, ops[0]), ops[1..]);
      LaterTransitive(w, Act(env, w, ops[0]), Run(env, w, ops));
    }
  }

  lemma LaterReflexive(w: World)
    ensures Later(w, w)
  {
  }
}
