/**
 The cap on concurrent reads of one research run. All asynchronous tools of the run share
 one semaphore, which hands a released permit to the call that has waited longest.
 */
module ReadCap {

  datatype Tool = Tool(name: string, isAsync: bool)

  datatype Wrapped = Wrapped(tool: Tool, capped: bool)

  /** Wraps a run's tools, in order: with a positive limit every asynchronous one is capped. */
  function CapReadConcurrency(tools: seq<Tool>, limit: int): seq<Wrapped> {
    seq(|tools|, i requires 0 <= i < |tools| => Wrapped(tools[i], limit > 0 && tools[i].isAsync))
  }

  type CallId = nat

  /** Calls in flight and waiting; `begun` are those that have ever started. */
  datatype Reads = Reads(limit: nat, permits: nat, running: set<CallId>, waiting: seq<CallId>, begun: set<CallId>)

  function Start(limit: nat): Reads {
    Reads(limit, limit, {}, [], {})
  }

  datatype Event =
    | Call(id: CallId)
    | Finish(id: CallId, raised: bool)
    | Abandon(id: CallId)

  function Begin(s: Reads, id: CallId): Reads {
    s.(running := s.running + {id}, begun := s.begun + {id})
  }

  function Position(waiting: seq<CallId>, id: CallId): (p: nat)
    requires id in waiting
    ensures p < |waiting| && waiting[p] == id && id !in waiting[..p]
  {
    if waiting[0] == id then 0 else 1 + Position(waiting[1..], id)
  }

  function Without(waiting: seq<CallId>, id: CallId): seq<CallId>
    requires id in waiting
  {
    var p := Position(waiting, id);
    waiting[..p] + waiting[p + 1..]
  }

  /** A call that returns and one that raises release their permit alike. */
  function Step(s: Reads, e: Event): Reads {
    match e
    case Call(id) =>
      if id in s.begun || id in s.waiting then s
      else if s.permits > 0 then Begin(s.(permits := s.permits - 1), id)
      else s.(waiting := s.waiting + [id])
    case Finish(id, _) =>
      if id !in s.running then s
      else
        var freed := s.(running := s.running - {id});
        if s.waiting == [] then freed.(permits := s.permits + 1)
        else Begin(freed.(waiting := s.waiting[1..]), s.waiting[0])
    case Abandon(id) => if id in s.waiting then s.(waiting := Without(s.waiting, id)) else s
  }

  function Run(s: Reads, events: seq<Event>): Reads
    decreases |events|
  {
    if events == [] then s else Run(Step(s, events[0]), events[1..])
  }

  // ---- Conservation of permits ----

  predicate Distinct(waiting: seq<CallId>) {
    forall i, j | 0 <= i < j < |waiting| :: waiting[i] != waiting[j]
  }

  predicate Inv(s: Reads) {
    && s.permits + |s.running| == s.limit
    && (s.waiting != [] ==> s.permits == 0)
    && s.running <= s.begun
    && Distinct(s.waiting)
    && forall i | 0 <= i < |s.waiting| :: s.waiting[i] !in s.begun
  }

  lemma Exchanged(s: set<CallId>, gone: CallId, come: CallId)
    requires gone in s && come !in s
    ensures |s - {gone}| == |s| - 1 && |s - {gone} + {come}| == |s|
  {
  }

  lemma StepKeeps(s: Reads, e: Event)
    requires Inv(s)
    ensures Inv(Step(s, e)) && Step(s, e).limit == s.limit && s.begun <= Step(s, e).begun
  {
    match e
    case Call(id) =>
    case Finish(id, raised) => FinishKeeps(s, id, raised);
    case Abandon(id) => AbandonKeeps(s, id);
  }

  lemma FinishKeeps(s: Reads, id: CallId, raised: bool)
    requires Inv(s)
    ensures var t := Step(s, Finish(id, raised)); Inv(t) && t.limit == s.limit && s.begun <= t.begun
  {
    if id in s.running && s.waiting != [] {
      assert s.waiting[0] !in s.begun;
      Exchanged(s.running, id, s.waiting[0]);
    }
  }

  lemma AbandonKeeps(s: Reads, id: CallId)
    requires Inv(s)
    ensures var t := Step(s, Abandon(id)); Inv(t) && t.limit == s.limit && s.begun <= t.begun
  {
    if id in s.waiting {
      var p := Position(s.waiting, id);
      var rest := Without(s.waiting, id);
      assert forall i | 0 <= i < |rest| :: rest[i] == s.waiting[if i < p then i else i + 1];
    }
  }

  /**
   Permits and calls in flight always add up to the limit, whatever calls are made, return,
   raise or are abandoned; so no more than `limit` calls are ever in flight at once.
   */
  lemma {:induction false} PermitsConserved(s: Reads, events: seq<Event>)
    requires Inv(s)
    ensures var t := Run(s, events); Inv(t) && t.limit == s.limit && |t.running| <= s.limit && s.begun <= t.begun
    decreases |events|
  {
    if events != [] {
      StepKeeps(s, events[0]);
      PermitsConserved(Step(s, events[0]), events[1..]);
    }
  }

  // ---- Every waiting call gets its turn ----

  predicate Ends(s: Reads, e: Event) {
    e.Finish? && e.id in s.running
  }

  /** How many calls finish during a run. */
  function Finished(s: Reads, events: seq<Event>): nat
    decreases |events|
  {
    if events == [] then 0 else (if Ends(s, events[0]) then 1 else 0) + Finished(Step(s, events[0]), events[1..])
  }

  /** A waiting call starts, or moves up by one place with every call that finishes. */
  lemma MovesUp(s: Reads, e: Event, id: CallId)
    requires Inv(s) && id in s.waiting && e != Abandon(id)
    ensures var (t, p) := (Step(s, e), Position(s.waiting, id));
            if id in t.waiting then Position(t.waiting, id) + (if Ends(s, e) then 1 else 0) <= p
            else id in t.begun
  {
    hide Without;
    var t, p := Step(s, e), Position(s.waiting, id);
    if e.Abandon? && e.id in s.waiting {
      OthersMoveUp(s.waiting, e.id, id);
      return;
    } else if Ends(s, e) && p > 0 {
      assert t.waiting[p - 1] == id;
    } else if e.Call? {
      assert t.waiting[..|s.waiting|] == s.waiting;
    }
    if id in t.waiting {
      PositionUnique(t.waiting, id);
    }
  }

  /** A call that gives up waiting delays nobody. */
  lemma OthersMoveUp(waiting: seq<CallId>, gone: CallId, id: CallId)
    requires gone in waiting && id in waiting && gone != id && Distinct(waiting)
    ensures var rest := Without(waiting, gone); id in rest && Position(rest, id) <= Position(waiting, id)
  {
    var rest, p, q := Without(waiting, gone), Position(waiting, id), Position(waiting, gone);
    assert rest[if p < q then p else p - 1] == id;
  }

  lemma PositionUnique(waiting: seq<CallId>, id: CallId)
    requires id in waiting && Distinct(waiting)
    ensures forall i | 0 <= i < |waiting| && waiting[i] == id :: i == Position(waiting, id)
  {
  }

  /**
   No call starves. A call waiting behind `p` others has started by the time more than `p`
   calls have finished, whatever else happens, unless it is itself abandoned.
   */
  lemma {:induction false} EveryWaiterRuns(s: Reads, events: seq<Event>, id: CallId)
    requires Inv(s) && id in s.waiting && Abandon(id) !in events
    ensures var t := Run(s, events);
            if id in t.waiting then Position(t.waiting, id) + Finished(s, events) <= Position(s.waiting, id)
            else id in t.begun
    decreases |events|
  {
    hide Inv, Step;
    if events != [] {
      var next := Step(s, events[0]);
      StepKeeps(s, events[0]);
      MovesUp(s, events[0], id);
      if id in next.waiting {
        EveryWaiterRuns(next, events[1..], id);
      } else {
        PermitsConserved(next, events[1..]);
        StartedNotWaiting(Run(next, events[1..]), id);
      }
    }
  }

  lemma StartedNotWaiting(s: Reads, id: CallId)
    requires Inv(s) && id in s.begun
    ensures id !in s.waiting
  {
  }

  /** While a call waits some call is in flight, so finishing is always possible: no deadlock. */
  lemma SomeCallInFlight(s: Reads)
    requires Inv(s) && s.limit > 0 && s.waiting != []
    ensures exists id :: id in s.running
  {
    assert |s.running| > 0;
    assert s.running != {};
  }

  // ---- All tools of a run ----

  /** A run's reads: those that go through the semaphore, those that do not, and the tool each call is for. */
  datatype ToolReads = ToolReads(gate: Reads, direct: set<CallId>, target: map<CallId, nat>)

  function StartTools(limit: int): ToolReads {
    ToolReads(Start(if limit > 0 then limit else 0), {}, map[])
  }

  datatype ToolEvent =
    | Invoke(id: CallId, tool: nat)
    | Settle(id: CallId, raised: bool)
    | Leave(id: CallId)

  /** A call of a capped tool goes through the semaphore, any other straight to the tool. */
  function ToolStep(wrapped: seq<Wrapped>, s: ToolReads, e: ToolEvent): ToolReads {
    match e
    case Invoke(id, k) =>
      if id in s.target || k >= |wrapped| then s
      else
        var known := s.(target := s.target[id := k]);
        if wrapped[k].capped then known.(gate := Step(s.gate, Call(id))) else known.(direct := s.direct + {id})
    case Settle(id, raised) =>
      if id in s.direct then s.(direct := s.direct - {id}) else s.(gate := Step(s.gate, Finish(id, raised)))
    case Leave(id) => s.(gate := Step(s.gate, Abandon(id)))
  }

  function RunTools(wrapped: seq<Wrapped>, s: ToolReads, events: seq<ToolEvent>): ToolReads
    decreases |events|
  {
    if events == [] then s else RunTools(wrapped, ToolStep(wrapped, s, events[0]), events[1..])
  }

  predicate InFlight(s: ToolReads, id: CallId) {
    id in s.gate.running || id in s.direct
  }

  predicate IsAsync(tools: seq<Tool>, s: ToolReads, id: CallId) {
    id in s.target && s.target[id] < |tools| && tools[s.target[id]].isAsync
  }

  /** The calls in flight on asynchronous tools, whichever tools they are. */
  function AsyncInFlight(tools: seq<Tool>, s: ToolReads): set<CallId> {
    set id | id in s.gate.running + s.direct && IsAsync(tools, s, id)
  }

  /** Which calls the semaphore knows: those of asynchronous tools, and only under a positive limit. */
  ghost predicate Routed(tools: seq<Tool>, limit: int, s: ToolReads) {
    && Inv(s.gate) && s.gate.limit == (if limit > 0 then limit else 0)
    && (forall id | id in s.gate.begun || id in s.gate.waiting :: limit > 0 && IsAsync(tools, s, id))
    && (forall id | id in s.direct :: id in s.target && !(limit > 0 && IsAsync(tools, s, id)))
  }

  lemma ToolStepKeeps(tools: seq<Tool>, limit: int, s: ToolReads, e: ToolEvent)
    requires Routed(tools, limit, s)
    ensures Routed(tools, limit, ToolStep(CapReadConcurrency(tools, limit), s, e))
  {
    hide Step, CapReadConcurrency, Inv;
    match e {
      case Invoke(id, k) => InvokeKeeps(tools, limit, s, id, k);
      case Settle(id, raised) =>
        StepKeeps(s.gate, Finish(id, raised));
        KnownAfterStep(s.gate, Finish(id, raised));
      case Leave(id) =>
        StepKeeps(s.gate, Abandon(id));
        KnownAfterStep(s.gate, Abandon(id));
    }
  }

  lemma InvokeKeeps(tools: seq<Tool>, limit: int, s: ToolReads, id: CallId, k: nat)
    requires Routed(tools, limit, s)
    ensures Routed(tools, limit, ToolStep(CapReadConcurrency(tools, limit), s, Invoke(id, k)))
  {
    hide Step, CapReadConcurrency, Inv;
    Wrapping(tools, limit);
    if id !in s.target && k < |tools| {
      StepKeeps(s.gate, Call(id));
      KnownAfterStep(s.gate, Call(id));
      TargetsKept(tools, s, id, k);
    }
  }

  lemma Wrapping(tools: seq<Tool>, limit: int)
    ensures var wrapped := CapReadConcurrency(tools, limit);
            |wrapped| == |tools| && forall k | 0 <= k < |tools| :: wrapped[k].capped <==> limit > 0 && tools[k].isAsync
  {
  }

  lemma TargetsKept(tools: seq<Tool>, s: ToolReads, id: CallId, k: nat)
    requires id !in s.target && k < |tools|
    ensures forall t: ToolReads | t.target == s.target[id := k] ::
              && (IsAsync(tools, t, id) <==> tools[k].isAsync)
              && forall x | x in s.target :: x in t.target && (IsAsync(tools, t, x) <==> IsAsync(tools, s, x))
  {
  }

  /** A step brings no call to the semaphore but the one that is made. */
  lemma KnownAfterStep(s: Reads, e: Event)
    ensures var t := Step(s, e);
            forall id | id in t.begun || id in t.waiting ::
              id in s.begun || id in s.waiting || e == Call(id)
  {
  }

  lemma {:induction false} RunToolsKeeps(tools: seq<Tool>, limit: int, s: ToolReads, events: seq<ToolEvent>)
    requires Routed(tools, limit, s)
    ensures Routed(tools, limit, RunTools(CapReadConcurrency(tools, limit), s, events))
    decreases |events|
  {
    hide Routed, ToolStep, CapReadConcurrency;
    if events != [] {
      ToolStepKeeps(tools, limit, s, events[0]);
      RunToolsKeeps(tools, limit, ToolStep(CapReadConcurrency(tools, limit), s, events[0]), events[1..]);
    }
  }

  /** In every run over the wrapped tools, calls in flight on asynchronous tools never exceed a positive limit. */
  lemma AsyncCallsCapped(tools: seq<Tool>, limit: int, events: seq<ToolEvent>)
    requires limit > 0
    ensures |AsyncInFlight(tools, RunTools(CapReadConcurrency(tools, limit), StartTools(limit), events))| <= limit
  {
    hide CapReadConcurrency, RunTools;
    RunToolsKeeps(tools, limit, StartTools(limit), events);
    var t := RunTools(CapReadConcurrency(tools, limit), StartTools(limit), events);
    assert AsyncInFlight(tools, t) <= t.gate.running;
    Subset(AsyncInFlight(tools, t), t.gate.running);
  }

  lemma {:induction false} Subset(a: set<CallId>, b: set<CallId>)
    requires a <= b
    ensures |a| <= |b|
    decreases |a|
  {
    if a != {} {
      var x :| x in a;
      Subset(a - {x}, b - {x});
    }
  }

  /**
   Synchronous tools, and all tools without a positive limit, are never delayed: in every run
   a new call on one starts at once, and no call on one is ever waiting.
   */
  lemma OthersNeverWait(tools: seq<Tool>, limit: int, events: seq<ToolEvent>, id: CallId, k: nat)
    requires k < |tools| && !(limit > 0 && tools[k].isAsync)
    ensures var wrapped := CapReadConcurrency(tools, limit);
            var t := RunTools(wrapped, StartTools(limit), events);
            && (id !in t.target ==> InFlight(ToolStep(wrapped, t, Invoke(id, k)), id))
            && (id in t.target && t.target[id] == k ==> id !in t.gate.waiting)
  {
    hide RunTools, CapReadConcurrency, Inv;
    Wrapping(tools, limit);
    StartRouted(tools, limit);
    RunToolsKeeps(tools, limit, StartTools(limit), events);
  }

  lemma StartRouted(tools: seq<Tool>, limit: int)
    ensures Routed(tools, limit, StartTools(limit))
  {
  }

  /** What the semaphore sees of a run. */
  function GateEvents(wrapped: seq<Wrapped>, s: ToolReads, events: seq<ToolEvent>): seq<Event>
    decreases |events|
  {
    if events == [] then []
    else
      var rest := GateEvents(wrapped, ToolStep(wrapped, s, events[0]), events[1..]);
      match events[0]
      case Invoke(id, k) =>
        if id in s.target || k >= |wrapped| || !wrapped[k].capped then rest else [Call(id)] + rest
      case Settle(id, raised) => if id in s.direct then rest else [Finish(id, raised)] + rest
      case Leave(id) => [Abandon(id)] + rest
  }

  /** The tools of a run share one semaphore: what it does is one run, of all their capped calls. */
  lemma {:induction false} OneSharedSemaphore(wrapped: seq<Wrapped>, s: ToolReads, events: seq<ToolEvent>)
    ensures RunTools(wrapped, s, events).gate == Run(s.gate, GateEvents(wrapped, s, events))
    decreases |events|
  {
    hide Step;
    if events != [] {
      OneSharedSemaphore(wrapped, ToolStep(wrapped, s, events[0]), events[1..]);
    }
  }

  // ---- The semaphore ----

  /** The semaphore shared by a run's capped tools, with the calls that hold or await a permit. */
  class Semaphore {
    ghost const limit: nat
    var value: nat
    var waiters: seq<CallId>
    var holders: set<CallId>
    ghost var begun: set<CallId>

    ghost function State(): Reads
      reads this
    {
      Reads(limit, value, holders, waiters, begun)
    }

    constructor (limit: nat)
      ensures State() == Start(limit) && Inv(State())
    {
      this.limit := limit;
      value, waiters, holders, begun := limit, [], {}, {};
    }

    /** Entering the `async with` block; the caller proceeds at once or queues up. */
    method Acquire(id: CallId) returns (entered: bool)
      requires Inv(State()) && id !in begun && id !in waiters
      modifies this
      ensures State() == Step(old(State()), Call(id)) && Inv(State())
      ensures entered <==> id in holders
    {
      StepKeeps(State(), Call(id));
      if value > 0 && waiters == [] {
        value := value - 1;
        holders, begun := holders + {id}, begun + {id};
        return true;
      }
      waiters := waiters + [id];
      return false;
    }

    /** Leaving the block, normally or by an exception: the first waiter takes the permit over. */
    method Release(id: CallId, raised: bool) returns (woken: bool)
      requires Inv(State()) && id in holders
      modifies this
      ensures State() == Step(old(State()), Finish(id, raised)) && Inv(State())
      ensures woken <==> old(waiters) != []
    {
      StepKeeps(State(), Finish(id, raised));
      holders := holders - {id};
      value := value + 1;
      woken := waiters != [];
      if woken {
        var next := waiters[0];
        value, waiters := value - 1, waiters[1..];
        holders, begun := holders + {next}, begun + {next};
      }
    }

    /** A queued call is cancelled before its turn. */
    method Withdraw(id: CallId)
      requires Inv(State()) && id in waiters
      modifies this
      ensures State() == Step(old(State()), Abandon(id)) && Inv(State())
    {
      StepKeeps(State(), Abandon(id));
      ghost var p := Position(waiters, id);
      var i := 0;
      while waiters[i] != id
        invariant i <= p
        decreases p - i
      {
        i := i + 1;
      }
      waiters := waiters[..i] + waiters[i + 1..];
    }
  }
}
